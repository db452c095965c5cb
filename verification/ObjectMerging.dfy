/** Merging objects: whose keys the result has, and that merging twice is merging once. */
module ObjectMerging {
  import opened Units
  import opened JsonValues
  import opened Schemas
  import opened ArrayMerges
  import opened ArrayMerging
  import opened ObjectMerges

  // ---------------------------------------------------------------- keys

  /** Both sides have objects all along the path, and every object on the way is marked for merging. */
  predicate MergesAlong(opts: Options, path: Text, l: Json, r: Json, keys: seq<Text>)
    decreases keys
  {
    && l.Obj? && r.Obj?
    && (keys != [] ==>
          && At(opts, path).merge && keys[0] in l.fields && keys[0] in r.fields
          && MergesAlong(opts, PathBelow(path, keys[0]), l.fields[keys[0]], r.fields[keys[0]], keys[1..]))
  }

  function Descend(d: Json, keys: seq<Text>): Json {
    if keys == [] then d
    else if d.Obj? && keys[0] in d.fields then Descend(d.fields[keys[0]], keys[1..])
    else Null
  }

  /** At every merged path the keys of the result are the keys of both sides. */
  lemma {:induction false} KeysUnited(env: Env, opts: Options, path: Text, l: Json, r: Json, keys: seq<Text>)
    requires Mergeable(env, opts, path, l, r) && MergesAlong(opts, path, l, r, keys)
    ensures var m, a, b := Descend(Merge(env, opts, path, l, r), keys), Descend(l, keys), Descend(r, keys);
            m.Obj? && a.Obj? && b.Obj? && m.fields.Keys == a.fields.Keys + b.fields.Keys
    decreases keys
  {
    if keys != [] {
      var k := keys[0];
      KeysUnited(env, opts, PathBelow(path, k), l.fields[k], r.fields[k], keys[1..]);
    }
  }

  // ---------------------------------------------------------------- merging twice

  /** The lists can be merged, and the argument is sorted if it is marked `sort`; the target need not be. */
  predicate ArraySteady(env: Env, o: PathOptions, l: seq<Json>, a: seq<Json>) {
    if a == [] then true
    else if o.sort then
      || o.compareBy == Arr([])
      || (o.compareBy == Null && AllComparable(env, l, a) && AllComparable(env, a, a) && NonDecreasing(env, a))
    else AllJudged(env, l, a, o.compareBy) && AllJudged(env, a, a, o.compareBy)
  }

  /** Kinds agree at every merged path, also when the argument is merged into what it has put there itself. */
  predicate Steady(env: Env, opts: Options, path: Text, l: Json, r: Json)
    decreases r
  {
    && l.Obj? && r.Obj?
    && (At(opts, path).merge ==>
          forall k :: k in r.fields ==>
            if k in l.fields && l.fields[k].Obj? then Steady(env, opts, PathBelow(path, k), l.fields[k], r.fields[k])
            else if k in l.fields && l.fields[k].Arr? then
              r.fields[k].Arr? && ArraySteady(env, At(opts, PathBelow(path, k)), l.fields[k].items, r.fields[k].items)
            else
              && (r.fields[k].Obj? ==> Steady(env, opts, PathBelow(path, k), r.fields[k], r.fields[k]))
              && (r.fields[k].Arr? ==> ArraySteady(env, At(opts, PathBelow(path, k)), r.fields[k].items, r.fields[k].items)))
  }

  /** Compared by no fields all elements are equal: only an empty target takes anything. */
  lemma {:induction false} NoFieldsMerged(env: Env, l: seq<Json>, a: seq<Json>)
    ensures Merged(env, l, a, Arr([])) == (if l == [] then a else l, Ok(()))
    decreases |a|
  {
    if a != [] && l != [] {
      NoFieldsMerged(env, l, a[1..]);
    }
  }

  lemma ArrayTwice(env: Env, o: PathOptions, l: seq<Json>, a: seq<Json>)
    requires ArraySteady(env, o, l, a)
    ensures var (m, end) := ArrayWith(env, l, a, o);
            end == Ok(()) && ArrayWith(env, m, a, o) == (m, Ok(()))
  {
    if a == [] {
    } else if o.sort && o.compareBy == Arr([]) {
      NoFieldsMerged(env, l, a);
      NoFieldsMerged(env, if l == [] then a else l, a);
    } else if o.sort {
      SortedTwice(env, l, a);
    } else {
      forall y | y in a
        ensures Equal(env, y, y, o.compareBy)
      {
        EqualToItself(env, y, o.compareBy);
      }
      AddedMeans(env, l, a, o.compareBy);
      AddedTwice(env, l, a, o.compareBy);
    }
  }

  lemma ArrayIntoItself(env: Env, o: PathOptions, a: seq<Json>)
    requires ArraySteady(env, o, a, a)
    ensures ArrayWith(env, a, a, o) == (a, Ok(()))
  {
    if a == [] {
    } else if o.sort && o.compareBy == Arr([]) {
      NoFieldsMerged(env, a, a);
    } else if o.sort {
      CoversItself(env, a);
      Absorbs(env, a, a);
    } else {
      forall y | y in a
        ensures Contained(env, a, y, o.compareBy)
      {
        EqualToItself(env, y, o.compareBy);
      }
      AddsNothing(env, a, a, o.compareBy);
    }
  }

  lemma {:induction false} SteadyMerges(env: Env, opts: Options, path: Text, l: Json, r: Json)
    requires Steady(env, opts, path, l, r)
    ensures Mergeable(env, opts, path, l, r)
    decreases r
  {
    hide ArrayWith, ArraySteady;
    if At(opts, path).merge {
      forall k | k in r.fields && k in l.fields
        ensures l.fields[k].Obj? ==> Mergeable(env, opts, PathBelow(path, k), l.fields[k], r.fields[k])
        ensures l.fields[k].Arr? ==> r.fields[k].Arr?
        ensures l.fields[k].Arr? ==>
                  ArrayWith(env, l.fields[k].items, r.fields[k].items, At(opts, PathBelow(path, k))).1.Ok?
      {
        if l.fields[k].Obj? {
          SteadyMerges(env, opts, PathBelow(path, k), l.fields[k], r.fields[k]);
        } else if l.fields[k].Arr? {
          ArrayTwice(env, At(opts, PathBelow(path, k)), l.fields[k].items, r.fields[k].items);
        }
      }
    }
  }

  lemma {:induction false} IntoItself(env: Env, opts: Options, path: Text, r: Json)
    requires Steady(env, opts, path, r, r)
    ensures Mergeable(env, opts, path, r, r) && Merge(env, opts, path, r, r) == r
    decreases r
  {
    hide ArrayWith, ArraySteady;
    SteadyMerges(env, opts, path, r, r);
    forall k | k in r.fields
      ensures MergedField(env, opts, path, r, r, k) == r.fields[k]
    {
      if At(opts, path).merge {
        match r.fields[k]
        case Obj(_) => IntoItself(env, opts, PathBelow(path, k), r.fields[k]);
        case Arr(items) => ArrayIntoItself(env, At(opts, PathBelow(path, k)), items);
        case _ =>
      }
    }
    assert Merge(env, opts, path, r, r).fields == r.fields;
  }

  /** The fields of a merge, without the map around them. */
  lemma FieldsOfMerge(env: Env, opts: Options, path: Text, l: Json, r: Json)
    requires Mergeable(env, opts, path, l, r)
    ensures var m := Merge(env, opts, path, l, r);
            && m.fields.Keys == l.fields.Keys + r.fields.Keys
            && forall k :: k in m.fields ==> m.fields[k] == MergedField(env, opts, path, l, r, k)
  {
    var m := Merge(env, opts, path, l, r);
    assert forall k :: k in m.fields <==> k in l.fields || k in r.fields;
  }

  /** The field `k` of the merge, and how the argument merges into it once more. */
  lemma {:induction false} FieldTwice(env: Env, opts: Options, path: Text, l: Json, r: Json, k: Text)
    requires Steady(env, opts, path, l, r) && Mergeable(env, opts, path, l, r) && k in r.fields && At(opts, path).merge
    ensures var v := MergedField(env, opts, path, l, r, k);
            ValueMerged(env, opts, PathBelow(path, k), At(opts, PathBelow(path, k)), v, r.fields[k], Ok(v))
    decreases r, 0
  {
    hide ArrayWith, ArraySteady;
    var under, o := PathBelow(path, k), At(opts, PathBelow(path, k));
    if k in l.fields && l.fields[k].Obj? {
      Twice(env, opts, under, l.fields[k], r.fields[k]);
    } else if k in l.fields && l.fields[k].Arr? {
      ArrayTwice(env, o, l.fields[k].items, r.fields[k].items);
    } else if r.fields[k].Obj? {
      IntoItself(env, opts, under, r.fields[k]);
    } else if r.fields[k].Arr? {
      ArrayIntoItself(env, o, r.fields[k].items);
    }
  }

  /** Merging the same object a second time ends well and changes nothing. */
  lemma {:induction false} Twice(env: Env, opts: Options, path: Text, l: Json, r: Json)
    requires Steady(env, opts, path, l, r)
    ensures Mergeable(env, opts, path, l, r)
    ensures var m := Merge(env, opts, path, l, r);
            Mergeable(env, opts, path, m, r) && Merge(env, opts, path, m, r) == m
    decreases r, 1
  {
    SteadyMerges(env, opts, path, l, r);
    FieldsOfMerge(env, opts, path, l, r);
    var m := Merge(env, opts, path, l, r);
    hide Mergeable, Merge, MergedField, Steady;
    forall k | k in r.fields
      ensures FieldDone(env, opts, path, m, r, k, m.fields[k])
    {
      if At(opts, path).merge {
        FieldTwice(env, opts, path, l, r, k);
        assert k in m.fields;
        MeansDone(env, opts, path, m, r, k, Ok(m.fields[k]));
      } else {
        Overwritten(env, opts, path, l, r, k);
        ValueReplaced(env, opts, path, m, r, k);
      }
    }
    assert Partly(env, opts, path, m, r, m.fields, {});
    AllDone(env, opts, path, m, r, m.fields);
  }

  lemma Overwritten(env: Env, opts: Options, path: Text, l: Json, r: Json, k: Text)
    requires Mergeable(env, opts, path, l, r) && k in r.fields && !At(opts, path).merge
    ensures MergedField(env, opts, path, l, r, k) == r.fields[k]
  {
  }

  // ---------------------------------------------------------------- options and paths, spelled out

  predicate SaysTrue(fields: map<Text, Json>, name: Text) {
    name in fields && fields[name] == Bool(true)
  }

  /** What an option object says, by the words in it, and what it is for: the root if it does not say. */
  lemma OptionObject(fields: map<Text, Json>)
    ensures FlagsOf(fields).merge <==> SaysTrue(fields, Chars("merge"))
    ensures FlagsOf(fields).dup <==> SaysTrue(fields, Chars("dup"))
    ensures FlagsOf(fields).sort <==> SaysTrue(fields, Chars("sort"))
    ensures FlagsOf(fields).compareBy == if Chars("compareBy") in fields then fields[Chars("compareBy")] else Null
    ensures PathsOf(fields) == var name := Chars("for");
                               if name !in fields then [Str([])] else if fields[name].Arr? then fields[name].items else [fields[name]]
  {
    assert Chars("merge") == MERGE && Chars("dup") == DUP && Chars("sort") == SORT && Chars("compareBy") == COMPARE_BY
      && Chars("for") == FOR;
  }

  /** A word by itself sets one option at the root, and leaves the others there as they were. */
  lemma OptionWord(o: PathOptions, name: Text)
    ensures var s := Switched(o, name);
            && s.merge == (o.merge || name == Chars("merge")) && s.dup == (o.dup || name == Chars("dup"))
            && s.sort == (o.sort || name == Chars("sort"))
            && s.compareBy == if name == Chars("compareBy") then Bool(true) else o.compareBy
  {
    assert Chars("merge") == MERGE && Chars("dup") == DUP && Chars("sort") == SORT && Chars("compareBy") == COMPARE_BY;
    assert |MERGE| == 5 && |DUP| == 3 && |SORT| == 4 && |COMPARE_BY| == 9;
  }

  /** The path of some keys: each with a slash before it. */
  function Slashed(keys: seq<Text>): Text {
    if keys == [] then [] else Slashed(keys[..|keys| - 1]) + [0x2F] + keys[|keys| - 1]
  }

  lemma {:induction false} SlashedBelow(k: Text, keys: seq<Text>)
    ensures Slashed([k] + keys) == [0x2F] + k + Slashed(keys)
  {
    if keys == [] {
      assert [k] + keys == [k] && [k][..0] == [];
    } else {
      var n := |keys| - 1;
      SlashedBelow(k, keys[..n]);
      assert ([k] + keys)[..n + 1] == [k] + keys[..n] && ([k] + keys)[n + 1] == keys[n];
      Regrouped([0x2F] + k, Slashed(keys[..n]), [0x2F] + keys[n]);
    }
  }

  /** Both sides have objects all along the keys, and the option of each on the way says to merge. */
  ghost predicate MergesTo(opts: Options, path: Text, l: Json, r: Json, keys: seq<Text>) {
    forall n :: 0 <= n < |keys| ==>
      && Descend(l, keys[..n]).Obj? && Descend(r, keys[..n]).Obj?
      && keys[n] in Descend(l, keys[..n]).fields && keys[n] in Descend(r, keys[..n]).fields
      && At(opts, path + Slashed(keys[..n])).merge
  }

  lemma MergesBelow(opts: Options, path: Text, l: Json, r: Json, keys: seq<Text>)
    requires keys != [] && MergesTo(opts, path, l, r, keys)
    ensures l.Obj? && r.Obj? && keys[0] in l.fields && keys[0] in r.fields && At(opts, path).merge
    ensures MergesTo(opts, PathBelow(path, keys[0]), l.fields[keys[0]], r.fields[keys[0]], keys[1..])
  {
    var k, rest := keys[0], keys[1..];
    assert keys[..0] == [] && path + [] == path;
    assert Descend(l, keys[..0]).Obj?;
    forall n | 0 <= n < |rest|
      ensures var a, b := l.fields[k], r.fields[k];
              && Descend(a, rest[..n]).Obj? && Descend(b, rest[..n]).Obj?
              && rest[n] in Descend(a, rest[..n]).fields && rest[n] in Descend(b, rest[..n]).fields
              && At(opts, PathBelow(path, k) + Slashed(rest[..n])).merge
    {
      var up := keys[..n + 1];
      assert up[0] == k && up[1..] == rest[..n] && keys[n + 1] == rest[n];
      assert up == [k] + rest[..n];
      SlashedBelow(k, rest[..n]);
      Regrouped(path, [0x2F] + k, Slashed(rest[..n]));
      Regrouped(path, [0x2F], k);
    }
  }

  /** What the merge has at some keys: arrays merged by the options of that path, other values taken from the argument. */
  lemma {:induction false} MergedAt(env: Env, opts: Options, path: Text, l: Json, r: Json, keys: seq<Text>)
    requires Mergeable(env, opts, path, l, r) && keys != [] && MergesTo(opts, path, l, r, keys)
    ensures var m, a, b := Descend(Merge(env, opts, path, l, r), keys), Descend(l, keys), Descend(r, keys);
            && (a.Arr? ==> b.Arr? && m == Arr(ArrayWith(env, a.items, b.items, At(opts, path + Slashed(keys))).0))
            && (!a.Arr? && !a.Obj? ==> m == b)
    decreases keys
  {
    hide ArrayWith;
    var k, rest := keys[0], keys[1..];
    MergesBelow(opts, path, l, r, keys);
    assert keys == [k] + rest;
    SlashedBelow(k, rest);
    Regrouped(path, [0x2F] + k, Slashed(rest));
    Regrouped(path, [0x2F], k);
    assert PathBelow(path, k) + Slashed(rest) == path + Slashed(keys);
    if rest == [] {
      assert Slashed([]) == [] && PathBelow(path, k) + [] == PathBelow(path, k);
      assert Descend(l, keys) == l.fields[k] && Descend(r, keys) == r.fields[k];
    } else {
      assert Descend(l.fields[k], rest[..0]).Obj?;
      MergedAt(env, opts, PathBelow(path, k), l.fields[k], r.fields[k], rest);
    }
  }
}
