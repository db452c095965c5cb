/** The trees that `mapToFull` builds: the last writer wins at every path, and nothing else is disturbed. */
module FullTrees {
  import opened Units
  import opened JsonValues
  import opened Pointers
  import opened SignalKKeys
  import opened FullFormat
  import opened ArrayMerges
  import opened ArrayMerging

  /** The value at a path of keys. */
  function Lookup(fields: Fields, path: seq<Text>): Option<Json>
    requires path != []
    decreases |path|
  {
    if path[0] !in fields then None
    else if |path| == 1 then Some(fields[path[0]])
    else if fields[path[0]].Obj? then Lookup(fields[path[0]].fields, path[1..])
    else None
  }

  /** Neither path leads through the other. */
  predicate Apart(p: seq<Text>, q: seq<Text>) {
    !(p <= q) && !(q <= p)
  }

  lemma TailsApart(p: seq<Text>, q: seq<Text>)
    requires p != [] && q != [] && p[0] == q[0]
    ensures p <= q <==> p[1..] <= q[1..]
    ensures q <= p <==> q[1..] <= p[1..]
  {
    assert p == [p[0]] + p[1..] && q == [q[0]] + q[1..];
  }

  /** `setJson` goes through unless something on the way is not an object. */
  lemma {:induction false} SetsThrough(fields: Fields, path: seq<Text>, v: Json)
    requires path != []
    requires forall q: seq<Text> :: q != [] && q < path && Lookup(fields, q).Some? ==> Lookup(fields, q).value.Obj?
    ensures SetAt(fields, path, v).Ok?
    decreases |path|
  {
    if |path| > 1 {
      var k := path[0];
      assert [k] < path;
      assert Lookup(fields, [k]) == if k in fields then Some(fields[k]) else None;
      var child := if k in fields then fields[k] else Obj(map[]);
      forall q: seq<Text> | q != [] && q < path[1..] && Lookup(child.fields, q).Some?
        ensures Lookup(child.fields, q).value.Obj?
      {
        var q' := [k] + q;
        assert q'[1..] == q && q' < path;
        assert k in fields ==> Lookup(fields, q') == Lookup(child.fields, q);
      }
      SetsThrough(child.fields, path[1..], v);
    }
  }

  /** Its own path has the value, the paths above have objects, all other paths have what they had. */
  lemma {:induction false} AfterSet(fields: Fields, path: seq<Text>, v: Json, q: seq<Text>)
    requires path != [] && q != [] && SetAt(fields, path, v).Ok?
    ensures var after := SetAt(fields, path, v).value;
            && (q == path ==> Lookup(after, q) == Some(v))
            && (q < path ==> Lookup(after, q).Some? && Lookup(after, q).value.Obj?)
            && (Apart(q, path) ==> Lookup(after, q) == Lookup(fields, q))
    decreases |path|
  {
    if |path| > 1 && q[0] == path[0] {
      TailsApart(q, path);
      if |q| > 1 {
        var child := if path[0] in fields then fields[path[0]] else Obj(map[]);
        AfterSet(child.fields, path[1..], v, q[1..]);
      }
    }
  }

  // ---------------------------------------------------------------- trees and their leaves

  type Leaves = map<seq<Text>, Json>

  /** The leaves are in the tree, and everything else in it is an object on the way to some leaf, or below a leaf. */
  ghost predicate IsTree(fields: Fields, leaves: Leaves) {
    && (forall p :: p in leaves ==> p != [] && Lookup(fields, p) == Some(leaves[p]))
    && forall q: seq<Text> :: q != [] && Lookup(fields, q).Some? ==> Explained(fields, leaves, q)
  }

  ghost predicate Explained(fields: Fields, leaves: Leaves, q: seq<Text>)
    requires q != [] && Lookup(fields, q).Some?
  {
    (exists p :: p in leaves && p <= q) || (Lookup(fields, q).value.Obj? && exists p :: p in leaves && q < p)
  }

  /** The path neither goes through a leaf nor stops above one. */
  predicate Fresh(leaves: Leaves, path: seq<Text>) {
    forall p :: p in leaves ==> p == path || Apart(p, path)
  }

  lemma SetKeepsTree(fields: Fields, leaves: Leaves, path: seq<Text>, v: Json)
    requires IsTree(fields, leaves) && path != [] && Fresh(leaves, path)
    ensures SetAt(fields, path, v).Ok? && IsTree(SetAt(fields, path, v).value, leaves[path := v])
  {
    forall q: seq<Text> | q != [] && q < path && Lookup(fields, q).Some?
      ensures Lookup(fields, q).value.Obj?
    {
      assert Explained(fields, leaves, q);
    }
    SetsThrough(fields, path, v);
    var after, leaves' := SetAt(fields, path, v).value, leaves[path := v];
    forall p | p in leaves'
      ensures p != [] && Lookup(after, p) == Some(leaves'[p])
    {
      AfterSet(fields, path, v, p);
    }
    forall q: seq<Text> | q != [] && Lookup(after, q).Some?
      ensures Explained(after, leaves', q)
    {
      StillExplained(fields, leaves, path, v, q);
    }
  }

  lemma StillExplained(fields: Fields, leaves: Leaves, path: seq<Text>, v: Json, q: seq<Text>)
    requires IsTree(fields, leaves) && path != [] && SetAt(fields, path, v).Ok?
    requires q != [] && Lookup(SetAt(fields, path, v).value, q).Some?
    ensures Explained(SetAt(fields, path, v).value, leaves[path := v], q)
  {
    var leaves' := leaves[path := v];
    AfterSet(fields, path, v, q);
    if path <= q || q < path {
      assert path in leaves';
    } else {
      assert Explained(fields, leaves, q);
      if p :| p in leaves && p <= q {
        assert p in leaves';
      } else {
        var p :| p in leaves && q < p;
        assert p in leaves';
      }
    }
  }

  // ---------------------------------------------------------------- the whole map

  /** Where the entries go, by path; a later entry replaces an earlier one. */
  function Placements(leaves: Leaves, keys: seq<Text>, m: Fields): Leaves
    requires forall k :: k in keys ==> k in m
  {
    if keys == [] then leaves
    else
      var n := |keys| - 1;
      var before := Placements(leaves, keys[..n], m);
      match Placed(keys[n], m[keys[n]])
      case None => before
      case Some((path, v)) => before[Split(path, DOT) := v]
  }

  /** The entry goes to a path with segments. */
  predicate HasPlace(key: Text, v: Json) {
    match Placed(key, v)
    case None => true
    case Some((path, _)) => path != [] && Split(path, DOT) != []
  }

  predicate PrefixFree(leaves: Leaves) {
    forall p, q :: p in leaves && q in leaves ==> p == q || Apart(p, q)
  }

  lemma {:induction false} PlacementsGrow(leaves: Leaves, keys: seq<Text>, m: Fields)
    requires keys != [] && forall k :: k in keys ==> k in m
    ensures Placements(leaves, keys[..|keys| - 1], m).Keys <= Placements(leaves, keys, m).Keys
  {
    hide Placed;
  }

  /** Over prefix-free paths `mapToFull` never fails, and builds the tree of the placements. */
  lemma {:induction false} TreeBuilt(root: Fields, leaves: Leaves, keys: seq<Text>, m: Fields)
    requires IsTree(root, leaves) && forall k :: k in keys ==> k in m && HasPlace(k, m[k])
    requires PrefixFree(Placements(leaves, keys, m))
    ensures FullOf(root, keys, m).Ok? && IsTree(FullOf(root, keys, m).value, Placements(leaves, keys, m))
  {
    hide Placed, IsTree, SetAt;
    if keys != [] {
      var n := |keys| - 1;
      PlacementsGrow(leaves, keys, m);
      TreeBuilt(root, leaves, keys[..n], m);
      var before := Placements(leaves, keys[..n], m);
      assert keys[n] in keys;
      match Placed(keys[n], m[keys[n]])
      case None =>
      case Some((path, v)) =>
        SetKeepsTree(FullOf(root, keys[..n], m).value, before, Split(path, DOT), v);
    }
  }

  predicate GoesTo(key: Text, v: Json, path: seq<Text>) {
    var place := Placed(key, v);
    place.Some? && Split(place.value.0, DOT) == path
  }

  lemma {:induction false} LastPlaced(leaves: Leaves, keys: seq<Text>, m: Fields, i: nat, path: seq<Text>)
    requires (forall k :: k in keys ==> k in m) && i < |keys| && GoesTo(keys[i], m[keys[i]], path)
    requires forall j :: i < j < |keys| ==> !GoesTo(keys[j], m[keys[j]], path)
    ensures path in Placements(leaves, keys, m)
    ensures Placements(leaves, keys, m)[path] == Placed(keys[i], m[keys[i]]).value.1
    decreases |keys|
  {
    hide Placed;
    var n := |keys| - 1;
    if i < n {
      LastPlaced(leaves, keys[..n], m, i, path);
    }
  }

  lemma HeadingIsTree(settings: Settings)
    ensures IsTree(Heading(settings), HeadingLeaves(settings))
  {
    var fields, leaves := Heading(settings), HeadingLeaves(settings);
    forall q: seq<Text> | q != [] && Lookup(fields, q).Some?
      ensures Explained(fields, leaves, q)
    {
      assert [q[0]] in leaves && [q[0]] <= q;
    }
  }

  function HeadingLeaves(settings: Settings): Leaves {
    map[[SELF] := Make(settings.uuid), [VERSION] := Make(settings.version)]
  }

  /** The paths of the entries and of the heading do not lead through each other. */
  ghost predicate Clean(settings: Settings, keys: seq<Text>, m: Fields) {
    && (forall k :: k in keys ==> k in m && HasPlace(k, m[k]))
    && PrefixFree(Placements(HeadingLeaves(settings), keys, m))
  }

  /** The full tree holds at each path the value of the greatest key for that path. */
  lemma GreatestKeyWins(settings: Settings, keys: seq<Text>, m: Fields, i: nat, path: seq<Text>)
    requires Lists(keys, m) && Clean(settings, keys, m)
    requires i < |keys| && GoesTo(keys[i], m[keys[i]], path)
    requires forall k :: k in m && GoesTo(k, m[k], path) ==> k == keys[i] || CompareText(k, keys[i]) < 0
    ensures path != [] && FullOf(Heading(settings), keys, m).Ok?
    ensures Lookup(FullOf(Heading(settings), keys, m).value, path) == Some(Placed(keys[i], m[keys[i]]).value.1)
  {
    hide Placed, SetAt;
    HeadingIsTree(settings);
    TreeBuilt(Heading(settings), HeadingLeaves(settings), keys, m);
    forall j | i < j < |keys|
      ensures !GoesTo(keys[j], m[keys[j]], path)
    {
      TextFlips(keys[i], keys[j]);
      TextFlips(keys[i], keys[i]);
    }
    LastPlaced(HeadingLeaves(settings), keys, m, i, path);
  }
}
