/** `parseFull` undoes `mapToFull`. */
module FullRoundTrip {
  import opened Units
  import opened JsonValues
  import opened Pointers
  import opened SignalKKeys
  import opened FullFormat
  import opened FullTrees

  // ---------------------------------------------------------------- reading off the leaves

  /** What is written for a leaf. */
  function LeafWritten(now: Text, prefix: Text, path: seq<Text>, v: Json): set<(Text, Json)>
    requires path != []
  {
    var n := |path| - 1;
    FieldWritten(now, prefix + Dotted(path[..n]), path[n], v)
  }

  /** Only the first segment of a path may be `value`: elsewhere it would make a value object of the node above. */
  predicate NoValueSegment(path: seq<Text>) {
    forall i :: 1 <= i < |path| ==> path[i] != VALUE
  }

  ghost predicate WithoutValueSegments(leaves: Leaves) {
    forall p :: p in leaves ==> p != [] && NoValueSegment(p)
  }

  /** The leaves below the field `k`. */
  ghost function LeavesBelow(leaves: Leaves, k: Text): Leaves {
    map q | q in (set p | p in leaves && |p| > 1 && p[0] == k :: p[1..]) && [k] + q in leaves :: leaves[[k] + q]
  }

  lemma LeavesBelowMeans(leaves: Leaves, k: Text, q: seq<Text>)
    ensures q in LeavesBelow(leaves, k) <==> q != [] && [k] + q in leaves
    ensures q in LeavesBelow(leaves, k) ==> LeavesBelow(leaves, k)[q] == leaves[[k] + q]
  {
    var p := [k] + q;
    assert p[0] == k && p[1..] == q;
    if q in LeavesBelow(leaves, k) {
      var p' :| p' in leaves && |p'| > 1 && p'[0] == k && p'[1..] == q;
      assert p' == [k] + q;
    }
  }

  lemma LookupUnder(fields: Fields, k: Text, q: seq<Text>)
    requires q != [] && k in fields && fields[k].Obj?
    ensures Lookup(fields, [k] + q) == Lookup(fields[k].fields, q)
  {
    assert ([k] + q)[1..] == q;
  }

  /** A field is a leaf, or an object without a value of its own whose tree is that of the leaves below it. */
  lemma FieldOfTree(fields: Fields, leaves: Leaves, k: Text)
    requires IsTree(fields, leaves) && WithoutValueSegments(leaves) && PrefixFree(leaves) && k in fields
    ensures [k] in leaves ==> fields[k] == leaves[[k]] && LeavesBelow(leaves, k) == map[]
    ensures [k] !in leaves ==>
              && fields[k].Obj? && VALUE !in fields[k].fields
              && IsTree(fields[k].fields, LeavesBelow(leaves, k)) && WithoutValueSegments(LeavesBelow(leaves, k)) && PrefixFree(LeavesBelow(leaves, k))
  {
    assert Lookup(fields, [k]) == Some(fields[k]);
    if [k] in leaves {
      NothingUnderLeaf(leaves, k);
    } else {
      NodeOfTree(fields, leaves, k);
      BelowIsTree(fields, leaves, k);
      hide IsTree;
      UnderIsReadable(leaves, k);
    }
  }

  lemma NothingUnderLeaf(leaves: Leaves, k: Text)
    requires PrefixFree(leaves) && [k] in leaves
    ensures LeavesBelow(leaves, k) == map[]
  {
    forall q
      ensures q !in LeavesBelow(leaves, k)
    {
      LeavesBelowMeans(leaves, k, q);
      assert [k] <= [k] + q;
    }
  }

  lemma NodeOfTree(fields: Fields, leaves: Leaves, k: Text)
    requires IsTree(fields, leaves) && WithoutValueSegments(leaves) && k in fields && [k] !in leaves
    ensures fields[k].Obj? && VALUE !in fields[k].fields
  {
    assert Lookup(fields, [k]) == Some(fields[k]);
    assert Explained(fields, leaves, [k]);
    var q := [k, VALUE];
    forall p | p in leaves
      ensures !(p <= [k]) && !(p <= q) && !(q < p)
    {
      assert p <= [k] || (|p| < 2 && p <= q) ==> p == [k];
      assert |p| >= 2 ==> p[1] != VALUE;
    }
    assert q[1..] == [VALUE];
    assert fields[k].Obj? && VALUE in fields[k].fields ==> Lookup(fields, q).Some?;
    assert Lookup(fields, q).Some? ==> Explained(fields, leaves, q);
  }

  lemma BelowIsTree(fields: Fields, leaves: Leaves, k: Text)
    requires IsTree(fields, leaves) && k in fields && fields[k].Obj? && [k] !in leaves
    ensures IsTree(fields[k].fields, LeavesBelow(leaves, k))
  {
    var child, under := fields[k].fields, LeavesBelow(leaves, k);
    forall p | p in under
      ensures p != [] && Lookup(child, p) == Some(under[p])
    {
      LeavesBelowMeans(leaves, k, p);
      LookupUnder(fields, k, p);
    }
    forall q: seq<Text> | q != [] && Lookup(child, q).Some?
      ensures Explained(child, under, q)
    {
      LookupUnder(fields, k, q);
      assert Explained(fields, leaves, [k] + q);
      if p :| p in leaves && p <= [k] + q {
        assert p != [k] && p[0] == k;
        assert p == [k] + p[1..];
        LeavesBelowMeans(leaves, k, p[1..]);
        TailsApart(p, [k] + q);
      } else {
        var p :| p in leaves && [k] + q < p;
        assert p == [k] + p[1..];
        LeavesBelowMeans(leaves, k, p[1..]);
        TailsApart(p, [k] + q);
        assert q != p[1..];
      }
    }
  }

  lemma UnderIsReadable(leaves: Leaves, k: Text)
    requires WithoutValueSegments(leaves) && PrefixFree(leaves)
    ensures WithoutValueSegments(LeavesBelow(leaves, k)) && PrefixFree(LeavesBelow(leaves, k))
  {
    forall p | p in LeavesBelow(leaves, k)
      ensures p != [] && NoValueSegment(p)
    {
      LeavesBelowMeans(leaves, k, p);
      assert forall i :: 0 <= i < |p| ==> p[i] == ([k] + p)[i + 1];
    }
    forall p, q | p in LeavesBelow(leaves, k) && q in LeavesBelow(leaves, k) && p != q
      ensures Apart(p, q)
    {
      LeavesBelowMeans(leaves, k, p);
      LeavesBelowMeans(leaves, k, q);
      assert ([k] + p)[1..] == p && ([k] + q)[1..] == q;
      TailsApart([k] + p, [k] + q);
    }
  }

  lemma LeafUnder(now: Text, prefix: Text, k: Text, q: seq<Text>, v: Json)
    requires q != []
    ensures LeafWritten(now, prefix + k + [DOT], q, v) == LeafWritten(now, prefix, [k] + q, v)
  {
    var p := [k] + q;
    var n := |q| - 1;
    assert p[..n + 1] == [k] + q[..n] && p[n + 1] == q[n];
    assert ([k] + q[..n])[1..] == q[..n];
    assert Dotted(p[..n + 1]) == k + [DOT] + Dotted(q[..n]);
    Regrouped(prefix, k + [DOT], Dotted(q[..n]));
    Regrouped(prefix, k, [DOT]);
  }

  /** What is written for a tree is what is written for its leaves. */
  lemma {:induction false} WrittenByLeaf(now: Text, fields: Fields, leaves: Leaves, prefix: Text, w: (Text, Json))
    requires IsTree(fields, leaves) && WithoutValueSegments(leaves) && PrefixFree(leaves)
    ensures w in Written(now, Obj(fields), prefix) <==> exists p :: p in leaves && w in LeafWritten(now, prefix, p, leaves[p])
    decreases Obj(fields), 1
  {
    hide FieldWritten, IsTree, PrefixFree, LeafWritten, LeavesBelow;
    if w in Written(now, Obj(fields), prefix) {
      var k :| k in fields && w in FieldWritten(now, prefix, k, fields[k]);
      FieldByLeaf(now, fields, leaves, prefix, k, w);
    }
    if p :| p in leaves && w in LeafWritten(now, prefix, p, leaves[p]) {
      LeafHasField(fields, leaves, p);
      var k := p[0];
      FieldByLeaf(now, fields, leaves, prefix, k, w);
      assert w in FieldWritten(now, prefix, k, fields[k]);
    }
  }

  lemma LeafHasField(fields: Fields, leaves: Leaves, p: seq<Text>)
    requires IsTree(fields, leaves) && p in leaves
    ensures p != [] && p[0] in fields
  {
  }

  lemma LeafIsField(now: Text, prefix: Text, k: Text, v: Json)
    ensures LeafWritten(now, prefix, [k], v) == FieldWritten(now, prefix, k, v)
  {
    assert [k][..0] == [];
    assert prefix + [] == prefix;
  }

  lemma {:induction false} FieldByLeaf(now: Text, fields: Fields, leaves: Leaves, prefix: Text, k: Text, w: (Text,
      Json))
    requires IsTree(fields, leaves) && WithoutValueSegments(leaves) && PrefixFree(leaves) && k in fields
    ensures w in FieldWritten(now, prefix, k, fields[k]) <==> FromBelow(now, leaves, prefix, k, w)
    decreases Obj(fields), 0
  {
    FieldOfTree(fields, leaves, k);
    hide IsTree, PrefixFree, LeafWritten, LeavesBelow, WithoutValueSegments, FromBelow;
    if [k] in leaves {
      LeafIsField(now, prefix, k, fields[k]);
      OnlyLeaf(now, leaves, prefix, k, w);
    } else {
      var child, under := fields[k].fields, LeavesBelow(leaves, k);
      assert fields[k] == Obj(child);
      WrittenByLeaf(now, child, under, prefix + k + [DOT], w);
      assert FieldWritten(now, prefix, k, fields[k]) == Written(now, fields[k], prefix + k + [DOT]);
      hide FieldWritten, Written;
      LeavesUnder(now, leaves, prefix, k, w);
    }
  }

  /** The entry is written for a leaf at the field `k` or below it. */
  ghost predicate FromBelow(now: Text, leaves: Leaves, prefix: Text, k: Text, w: (Text, Json)) {
    exists p :: p in leaves && p != [] && p[0] == k && w in LeafWritten(now, prefix, p, leaves[p])
  }

  lemma LeavesUnder(now: Text, leaves: Leaves, prefix: Text, k: Text, w: (Text, Json))
    requires [k] !in leaves && forall p :: p in LeavesBelow(leaves, k) ==> p != []
    ensures FromBelow(now, leaves, prefix, k, w) <==>
            exists q :: q in LeavesBelow(leaves, k) && w in LeafWritten(now, prefix + k + [DOT], q, LeavesBelow(leaves, k)[q])
  {
    hide LeafWritten, LeavesBelow;
    var under, below := LeavesBelow(leaves, k), prefix + k + [DOT];
    if q :| q in under && w in LeafWritten(now, below, q, under[q]) {
      LeavesBelowMeans(leaves, k, q);
      LeafUnder(now, prefix, k, q, under[q]);
      assert [k] + q in leaves && ([k] + q)[0] == k;
    }
    if p :| p in leaves && p != [] && p[0] == k && w in LeafWritten(now, prefix, p, leaves[p]) {
      assert p == [k] + p[1..] && (p[1..] == [] ==> p == [k]);
      LeavesBelowMeans(leaves, k, p[1..]);
      LeafUnder(now, prefix, k, p[1..], leaves[p]);
      assert p[1..] in under;
    }
  }

  lemma OnlyLeaf(now: Text, leaves: Leaves, prefix: Text, k: Text, w: (Text, Json))
    requires [k] in leaves && LeavesBelow(leaves, k) == map[]
    ensures FromBelow(now, leaves, prefix, k, w) <==> w in LeafWritten(now, prefix, [k], leaves[[k]])
  {
    hide LeafWritten, LeavesBelow;
    forall p | p in leaves && p != [] && p[0] == k
      ensures p == [k]
    {
      assert p == [k] + p[1..];
      LeavesBelowMeans(leaves, k, p[1..]);
    }
  }

  lemma {:induction false} TreeParses(fields: Fields, leaves: Leaves)
    requires IsTree(fields, leaves) && WithoutValueSegments(leaves) && PrefixFree(leaves)
    requires forall p :: p in leaves ==> FieldParses(leaves[p])
    ensures Parses(Obj(fields))
    decreases Obj(fields)
  {
    forall k | k in fields
      ensures FieldParses(fields[k])
    {
      FieldOfTree(fields, leaves, k);
      if [k] !in leaves {
        forall q | q in LeavesBelow(leaves, k)
          ensures FieldParses(LeavesBelow(leaves, k)[q])
        {
          LeavesBelowMeans(leaves, k, q);
        }
        hide IsTree;
        TreeParses(fields[k].fields, LeavesBelow(leaves, k));
      }
    }
  }

  // ---------------------------------------------------------------- readings

  /** The value measured at a path, by one source. */
  datatype Reading = Reading(source: Text, value: Json, time: Text)

  type Readings = map<seq<Text>, Reading>

  function KeyOf(path: seq<Text>, r: Reading): Text {
    Joined(path) + DOT_VALUES_DOT + r.source
  }

  function ReadingEntry(r: Reading): Json {
    Obj(map[VALUE := r.value, SOURCE_REF := Str(r.source), TIMESTAMP := Str(r.time)])
  }

  /** The flat map of some readings. */
  ghost predicate IsFlat(m: Fields, rs: Readings) {
    && (forall p :: p in rs ==> KeyOf(p, rs[p]) in m && m[KeyOf(p, rs[p])] == ReadingEntry(rs[p]))
    && forall k :: k in m ==> exists p :: p in rs && k == KeyOf(p, rs[p])
  }

  /**
   * No segment but the first is `value` or `values`, and none between the first and the last starts with `values`: the
   * reader of the full format takes these words for its own.
   */
  predicate PlainPath(path: seq<Text>) {
    && IsPath(path)
    && (forall i :: 1 <= i < |path| ==> path[i] != VALUE && path[i] != VALUES)
    && forall i :: 1 <= i < |path| - 1 ==> !(VALUES <= path[i])
  }

  /** Paths that do not lead through each other, nor through `self` and `version`, and keys that are no attributes. */
  ghost predicate PlainReadings(rs: Readings) {
    && (forall p :: p in rs ==> PlainPath(p) && !EndsWith(KeyOf(p, rs[p]), ATTR) && Apart(p, [SELF]) && Apart(p, [VERSION]))
    && forall p, q :: p in rs && q in rs ==> p == q || Apart(p, q)
  }

  // ---------------------------------------------------------------- finding the mark

  /** A segment, its dot and more: the mark can only start at the dot or later. */
  lemma MarkPassesSegment(s: Text, rest: Text, part: Text)
    requires IsSegment(s) && part != [] && part[0] == DOT
    ensures forall j :: 0 <= j < |s| ==> !(part <= (s + rest)[j..])
  {
    forall j | 0 <= j < |s|
      ensures !(part <= (s + rest)[j..])
    {
      assert (s + rest)[j..][0] == s[j];
    }
  }

  lemma IndexBehind(s: Text, rest: Text, part: Text)
    requires IsSegment(s) && part != [] && part[0] == DOT
    ensures IndexOf(s + rest, part) == if IndexOf(rest, part) < 0 then -1 else |s| + IndexOf(rest, part)
    decreases |s|
  {
    var t := s + rest;
    MarkPassesSegment(s, rest, part);
    assert t[0..] == t;
    assert t[1..] == s[1..] + rest;
    if |s| == 1 {
      assert s[1..] + rest == rest;
    } else {
      IndexBehind(s[1..], rest, part);
    }
  }

  /** A dot and a text without the rest of the mark in front. */
  lemma IndexOverDot(rest: Text, part: Text)
    requires part != [] && part[0] == DOT && !(part[1..] <= rest)
    ensures IndexOf([DOT] + rest, part) == if IndexOf(rest, part) < 0 then -1 else 1 + IndexOf(rest, part)
  {
    var t := [DOT] + rest;
    assert t[1..] == rest;
    TailsPrefixed(part, t);
  }

  lemma TailsPrefixed(a: Text, b: Text)
    requires a != [] && b != []
    ensures a <= b ==> a[1..] <= b[1..]
  {
  }

  /** A word without dots that starts a text starts its first segment. */
  lemma DotFreePrefix(w: Text, s: Text, rest: Text)
    requires DOT !in w && (rest == [] || rest[0] == DOT) && w <= s + rest
    ensures w <= s
  {
    forall i | 0 <= i < |w|
      ensures w[i] == (s + rest)[i] != DOT
    {
      assert w[i] in w;
    }
    assert rest != [] ==> (s + rest)[|s|] == DOT;
  }

  /** A word and a dot start a text only if the word is its first segment. */
  lemma WordThenDot(w: Text, s: Text, rest: Text)
    requires DOT !in w && DOT !in s && rest != [] && rest[0] == DOT && w != s
    ensures !(w + [DOT] <= s + rest)
  {
    var a, b := w + [DOT], s + rest;
    if |w| < |s| {
      assert a[|w|] == DOT && b[|w|] == s[|w|];
    } else if |w| > |s| {
      assert a[|s|] == w[|s|] && b[|s|] == DOT;
    } else {
      assert a[..|w|] == w && b[..|s|] == s;
    }
  }

  /** In a key the first mark is the one behind the path. */
  lemma {:induction false} MarkBehindPath(path: seq<Text>, source: Text)
    requires IsPath(path) && forall i :: 1 <= i < |path| ==> path[i] != VALUES
    ensures IndexOf(Joined(path) + (DOT_VALUES_DOT + source), DOT_VALUES_DOT) == |Joined(path)|
  {
    var s, tail := path[0], DOT_VALUES_DOT + source;
    if |path| == 1 {
      assert DOT_VALUES_DOT <= tail;
      IndexBehind(s, tail, DOT_VALUES_DOT);
    } else {
      var later := Joined(path[1..]);
      MarkBehindPath(path[1..], source);
      assert Joined(path) + tail == s + ([DOT] + (later + tail)) by {
        Regrouped(s + [DOT], later, tail);
        Regrouped(s, [DOT], later + tail);
      }
      IndexBehind(s, [DOT] + (later + tail), DOT_VALUES_DOT);
      NoMarkAhead(path[1..], tail);
      IndexOverDot(later + tail, DOT_VALUES_DOT);
    }
  }

  lemma NoMarkAhead(path: seq<Text>, tail: Text)
    requires IsPath(path) && path[0] != VALUES && tail != [] && tail[0] == DOT
    ensures !(DOT_VALUES_DOT[1..] <= Joined(path) + tail)
  {
    var s := path[0];
    var rest := if |path| == 1 then tail else [DOT] + Joined(path[1..]) + tail;
    if |path| > 1 {
      Regrouped(s, [DOT], Joined(path[1..]));
      Regrouped(s, [DOT] + Joined(path[1..]), tail);
    }
    assert Joined(path) + tail == s + rest;
    assert DOT_VALUES_DOT[1..] == VALUES + [DOT];
    WordThenDot(VALUES, s, rest);
  }

  /** In front of the last segment no segment starts with `values` behind a dot. */
  lemma {:induction false} NoValuesInPrefix(path: seq<Text>)
    requires (forall i :: 0 <= i < |path| ==> IsSegment(path[i])) && forall i :: 1 <= i < |path| ==> !(VALUES <= path[i])
    ensures !Contains(Dotted(path), [DOT] + VALUES)
  {
    hide IndexOf;
    var part := [DOT] + VALUES;
    if path == [] {
      Nowhere([], part);
    } else {
      var later := Dotted(path[1..]);
      NoValuesInPrefix(path[1..]);
      Regrouped(path[0], [DOT], later);
      IndexBehind(path[0], [DOT] + later, part);
      assert part[1..] == VALUES;
      NoValuesAhead(path[1..]);
      IndexOverDot(later, part);
    }
  }

  lemma NoValuesAhead(path: seq<Text>)
    requires path != [] ==> !(VALUES <= path[0])
    ensures !(VALUES <= Dotted(path))
  {
    if path != [] {
      var rest := [DOT] + Dotted(path[1..]);
      Regrouped(path[0], [DOT], Dotted(path[1..]));
      if VALUES <= path[0] + rest {
        DotFreePrefix(VALUES, path[0], rest);
      }
    }
  }

  // ---------------------------------------------------------------- the round trip

  lemma KeySplits(path: seq<Text>, r: Reading)
    requires PlainPath(path)
    ensures SubstringBefore(KeyOf(path, r), DOT_VALUES_DOT) == Joined(path)
    ensures Split(Joined(path), DOT) == path && Joined(path) != []
  {
    MarkBehindPath(path, r.source);
    Regrouped(Joined(path), DOT_VALUES_DOT, r.source);
    assert KeyOf(path, r)[..|Joined(path)|] == Joined(path);
    SplitJoined(path);
  }

  lemma KeysDiffer(rs: Readings, p: seq<Text>, q: seq<Text>)
    requires PlainReadings(rs) && p in rs && q in rs && KeyOf(p, rs[p]) == KeyOf(q, rs[q])
    ensures p == q
  {
    KeySplits(p, rs[p]);
    KeySplits(q, rs[q]);
  }

  lemma PlacedReading(p: seq<Text>, r: Reading)
    requires PlainPath(p) && !EndsWith(KeyOf(p, r), ATTR)
    ensures Placed(KeyOf(p, r), ReadingEntry(r)) == Some((Joined(p), ReadingEntry(r)))
  {
    hide PlainPath, KeyOf, EndsWith, SubstringBefore;
    KeySplits(p, r);
    assert SENTENCE !in ReadingEntry(r).fields;
  }

  /** The entry at `k` is the reading at `p`. */
  ghost predicate Reads(m: Fields, rs: Readings, k: Text, p: seq<Text>)
    requires k in m
  {
    && p in rs && k == KeyOf(p, rs[p]) && p != [] && Joined(p) != [] && Split(Joined(p), DOT) == p
    && Placed(k, m[k]) == Some((Joined(p), ReadingEntry(rs[p])))
  }

  lemma ReadingAt(m: Fields, rs: Readings, k: Text) returns (p: seq<Text>)
    requires IsFlat(m, rs) && PlainReadings(rs) && k in m
    ensures Reads(m, rs, k, p)
  {
    hide Placed, PlainPath, KeyOf, Joined, Split, ReadingEntry, EndsWith;
    p :| p in rs && k == KeyOf(p, rs[p]);
    PlacedReading(p, rs[p]);
    KeySplits(p, rs[p]);
    assert PlainPath(p);
    PlainIsPath(p);
  }

  lemma PlainIsPath(p: seq<Text>)
    requires PlainPath(p)
    ensures p != []
  {
  }

  /** Besides the heading the leaves are the readings with a key in the list. */
  ghost predicate HoldsReadings(settings: Settings, keys: seq<Text>, rs: Readings, leaves: Leaves) {
    && (forall p :: p in HeadingLeaves(settings) ==> p in leaves && leaves[p] == HeadingLeaves(settings)[p])
    && (forall p :: p in leaves ==>
          p in HeadingLeaves(settings) || (p in rs && KeyOf(p, rs[p]) in keys && leaves[p] == ReadingEntry(rs[p])))
    && forall p :: p in rs && KeyOf(p, rs[p]) in keys ==> p in leaves
  }

  lemma OneMoreReading(settings: Settings, keys: seq<Text>, rs: Readings, leaves: Leaves, p: seq<Text>)
    requires PlainReadings(rs) && p in rs && HoldsReadings(settings, keys, rs, leaves)
    ensures HoldsReadings(settings, keys + [KeyOf(p, rs[p])], rs, leaves[p := ReadingEntry(rs[p])])
  {
    hide KeyOf, ReadingEntry, HeadingLeaves, PlainPath, EndsWith;
    NotHeading(rs, p);
    HeadingPaths(settings);
    forall q | q in rs && KeyOf(q, rs[q]) == KeyOf(p, rs[p])
      ensures q == p
    {
      KeysDiffer(rs, p, q);
    }
    hide PlainReadings;
  }

  lemma HeadingPaths(settings: Settings)
    ensures HeadingLeaves(settings).Keys == {[SELF], [VERSION]}
  {
  }

  lemma {:induction false} PlacementsOfReadings(settings: Settings, keys: seq<Text>, m: Fields, rs: Readings)
    requires (forall k :: k in keys ==> k in m) && IsFlat(m, rs) && PlainReadings(rs)
    ensures HoldsReadings(settings, keys, rs, Placements(HeadingLeaves(settings), keys, m))
  {
    hide Placed, IsFlat, PlainReadings, KeyOf, ReadingEntry;
    if keys != [] {
      var n := |keys| - 1;
      PlacementsOfReadings(settings, keys[..n], m, rs);
      assert keys[n] in keys;
      var p := ReadingAt(m, rs, keys[n]);
      var before := Placements(HeadingLeaves(settings), keys[..n], m);
      OneMoreReading(settings, keys[..n], rs, before, p);
      hide HoldsReadings;
      assert keys == keys[..n] + [KeyOf(p, rs[p])];
    }
  }

  lemma NotHeading(rs: Readings, p: seq<Text>)
    requires PlainReadings(rs) && p in rs
    ensures p != [SELF] && p != [VERSION]
  {
    assert p <= p;
  }

  lemma HeadingApart(rs: Readings, p: seq<Text>)
    requires PlainReadings(rs) && p in rs
    ensures forall h :: h in {[SELF], [VERSION]} ==> Apart(p, h) && Apart(h, p)
  {
    hide PlainPath, EndsWith, KeyOf;
  }

  lemma HeldPrefixFree(settings: Settings, keys: seq<Text>, rs: Readings, leaves: Leaves)
    requires PlainReadings(rs) && HoldsReadings(settings, keys, rs, leaves)
    ensures PrefixFree(leaves)
  {
    hide PlainPath, EndsWith, KeyOf, HeadingLeaves, ReadingEntry;
    HeadingPaths(settings);
    HeadingsApart();
    forall p | p in rs {
      HeadingApart(rs, p);
    }
    forall p, q | p in leaves && q in leaves && p != q
      ensures Apart(p, q)
    {
      assert p in rs || p in {[SELF], [VERSION]};
      assert q in rs || q in {[SELF], [VERSION]};
    }
  }

  lemma HeadingsApart()
    ensures forall h, g :: h in {[SELF], [VERSION]} && g in {[SELF], [VERSION]} ==> h == g || Apart(h, g)
  {
    assert SELF != VERSION;
  }

  lemma HeldReadable(settings: Settings, keys: seq<Text>, rs: Readings, leaves: Leaves)
    requires PlainReadings(rs) && HoldsReadings(settings, keys, rs, leaves)
    ensures WithoutValueSegments(leaves) && forall p :: p in leaves ==> FieldParses(leaves[p])
  {
    hide EndsWith, KeyOf;
    forall p | p in leaves
      ensures p != [] && NoValueSegment(p) && FieldParses(leaves[p])
    {
      if p in HeadingLeaves(settings) {
        HeadingParses(settings, p);
      } else {
        ReadingParses(rs[p]);
        assert PlainPath(p);
      }
    }
  }

  lemma HeadingParses(settings: Settings, p: seq<Text>)
    requires p in HeadingLeaves(settings)
    ensures |p| == 1 && FieldParses(HeadingLeaves(settings)[p])
  {
  }

  lemma ReadingParses(r: Reading)
    ensures FieldParses(ReadingEntry(r))
  {
  }

  lemma HeldIsClean(settings: Settings, keys: seq<Text>, rs: Readings, leaves: Leaves)
    requires PlainReadings(rs) && HoldsReadings(settings, keys, rs, leaves)
    ensures PrefixFree(leaves) && WithoutValueSegments(leaves) && forall p :: p in leaves ==> FieldParses(leaves[p])
  {
    HeldPrefixFree(settings, keys, rs, leaves);
    HeldReadable(settings, keys, rs, leaves);
  }

  lemma ReadingsAreClean(settings: Settings, keys: seq<Text>, m: Fields, rs: Readings)
    requires Lists(keys, m) && IsFlat(m, rs) && PlainReadings(rs)
    ensures Clean(settings, keys, m)
  {
    hide Placed, IsFlat, PlainReadings, KeyOf, ReadingEntry, Placements, Ascending;
    forall k | k in keys
      ensures HasPlace(k, m[k])
    {
      var p := ReadingAt(m, rs, k);
    }
    PlacementsOfReadings(settings, keys, m, rs);
    HeldIsClean(settings, keys, rs, Placements(HeadingLeaves(settings), keys, m));
  }

  /** A leaf is written as its own entry of the flat map. */
  lemma ReadingWritten(now: Text, path: seq<Text>, r: Reading)
    requires PlainPath(path)
    ensures LeafWritten(now, [], path, ReadingEntry(r)) == {(KeyOf(path, r), ReadingEntry(r))}
  {
    var n := |path| - 1;
    var prefix := [] + Dotted(path[..n]);
    assert prefix == Dotted(path[..n]);
    NoValuesInPrefix(path[..n]);
    JoinedIsDotted(path);
    hide Contains;
    assert ValueWritten(now, prefix, path[n], ReadingEntry(r)) == (KeyOf(path, r), ReadingEntry(r));
    assert VALUES !in ReadingEntry(r).fields;
  }

  lemma HeadingWritten(now: Text, k: Text, o: Option<Text>)
    ensures LeafWritten(now, [], [k], Make(o)) == {(k, Make(o))}
  {
    LeafIsField(now, [], k, Make(o));
    assert [] + k == k;
  }

  /** What is written for the full tree of some readings: the readings, and the two entries of the heading. */
  lemma WrittenForReadings(now: Text, settings: Settings, keys: seq<Text>, rs: Readings, leaves: Leaves,
      fields: Fields, w: (Text, Json))
    requires PlainReadings(rs) && HoldsReadings(settings, keys, rs, leaves) && IsTree(fields, leaves)
    ensures w in Written(now, Obj(fields), []) <==>
            || w == (SELF, Make(settings.uuid)) || w == (VERSION, Make(settings.version))
            || exists p :: p in rs && KeyOf(p, rs[p]) in keys && w == (KeyOf(p, rs[p]), ReadingEntry(rs[p]))
  {
    HeldIsClean(settings, keys, rs, leaves);
    hide Written, IsTree, LeafWritten, KeyOf, ReadingEntry, PrefixFree, WithoutValueSegments, PlainReadings, HoldsReadings, HeadingLeaves;
    WrittenByLeaf(now, fields, leaves, [], w);
    forall p | p in leaves
      ensures w in LeafWritten(now, [], p, leaves[p]) <==> IsLeafEntry(settings, keys, rs, p, w)
    {
      LeafEntry(now, settings, keys, rs, leaves, p, w);
    }
    LeavesListed(settings, keys, rs, leaves, w);
  }

  /** The entry of a leaf: a line of the heading, or a reading. */
  ghost predicate IsLeafEntry(settings: Settings, keys: seq<Text>, rs: Readings, p: seq<Text>, w: (Text, Json)) {
    || (p == [SELF] && w == (SELF, Make(settings.uuid)))
    || (p == [VERSION] && w == (VERSION, Make(settings.version)))
    || (p in rs && KeyOf(p, rs[p]) in keys && w == (KeyOf(p, rs[p]), ReadingEntry(rs[p])))
  }

  lemma LeafEntry(now: Text, settings: Settings, keys: seq<Text>, rs: Readings, leaves: Leaves, p: seq<Text>,
      w: (Text, Json))
    requires PlainReadings(rs) && HoldsReadings(settings, keys, rs, leaves) && p in leaves && p != []
    ensures w in LeafWritten(now, [], p, leaves[p]) <==> IsLeafEntry(settings, keys, rs, p, w)
  {
    hide LeafWritten, KeyOf, ReadingEntry, EndsWith, PlainPath;
    HeadingPaths(settings);
    HeadingsApart();
    if p in HeadingLeaves(settings) {
      HeadingWritten(now, SELF, settings.uuid);
      HeadingWritten(now, VERSION, settings.version);
      if p in rs {
        NotHeading(rs, p);
      }
    } else {
      assert PlainPath(p);
      ReadingWritten(now, p, rs[p]);
    }
  }

  lemma LeavesListed(settings: Settings, keys: seq<Text>, rs: Readings, leaves: Leaves, w: (Text, Json))
    requires HoldsReadings(settings, keys, rs, leaves)
    ensures (exists p :: p in leaves && IsLeafEntry(settings, keys, rs, p, w)) <==>
            || w == (SELF, Make(settings.uuid)) || w == (VERSION, Make(settings.version))
            || exists p :: p in rs && KeyOf(p, rs[p]) in keys && w == (KeyOf(p, rs[p]), ReadingEntry(rs[p]))
  {
    hide KeyOf, ReadingEntry, HeadingLeaves;
    HeadingPaths(settings);
    assert [SELF] in leaves && [VERSION] in leaves;
    if p :| p in rs && KeyOf(p, rs[p]) in keys && w == (KeyOf(p, rs[p]), ReadingEntry(rs[p])) {
      assert IsLeafEntry(settings, keys, rs, p, w);
    }
    if w == (SELF, Make(settings.uuid)) {
      assert IsLeafEntry(settings, keys, rs, [SELF], w);
    }
    if w == (VERSION, Make(settings.version)) {
      assert IsLeafEntry(settings, keys, rs, [VERSION], w);
    }
  }

  lemma FlatEntries(keys: seq<Text>, m: Fields, rs: Readings, w: (Text, Json))
    requires Lists(keys, m) && IsFlat(m, rs)
    ensures (exists p :: p in rs && KeyOf(p, rs[p]) in keys && w == (KeyOf(p, rs[p]), ReadingEntry(rs[p])))
            <==> w.0 in m && m[w.0] == w.1
  {
    hide KeyOf, ReadingEntry, Ascending;
  }

  lemma FullSucceeds(settings: Settings, keys: seq<Text>, m: Fields, rs: Readings)
    requires Lists(keys, m) && IsFlat(m, rs) && PlainReadings(rs)
    ensures var full := FullOf(Heading(settings), keys, m);
            && full.Ok? && Parses(Obj(full.value))
            && IsTree(full.value, Placements(HeadingLeaves(settings), keys, m))
  {
    ReadingsAreClean(settings, keys, m, rs);
    HeadingIsTree(settings);
    PlacementsOfReadings(settings, keys, m, rs);
    HeldIsClean(settings, keys, rs, Placements(HeadingLeaves(settings), keys, m));
    hide IsTree, Placements, FullOf, Parses, Placed, IsFlat, PlainReadings, HoldsReadings, PrefixFree, HasPlace;
    TreeBuilt(Heading(settings), HeadingLeaves(settings), keys, m);
    TreeParses(FullOf(Heading(settings), keys, m).value, Placements(HeadingLeaves(settings), keys, m));
  }

  /**
   * `parseFull(mapToFull(m))`: for readings at plain paths the flat map comes back, with the two entries of the heading;
   * whatever order the fields of the tree are visited in.
   */
  lemma ParseUndoesMap(now: Text, settings: Settings, keys: seq<Text>, m: Fields, rs: Readings, after: Fields)
    requires Lists(keys, m) && IsFlat(m, rs) && PlainReadings(rs)
    requires var full := FullOf(Heading(settings), keys, m);
             full.Ok? ==> Puts(map[], Written(now, Obj(full.value), []), after)
    ensures FullOf(Heading(settings), keys, m).Ok? && Parses(Obj(FullOf(Heading(settings), keys, m).value))
    ensures after == m[SELF := Make(settings.uuid)][VERSION := Make(settings.version)]
  {
    NoHeadingKeys(m, rs);
    hide Written, IsTree, Placements, FullOf, Parses, Puts, IsFlat, PlainReadings, HoldsReadings, KeyOf, Ascending;
    FullSucceeds(settings, keys, m, rs);
    PlacementsOfReadings(settings, keys, m, rs);
    var fields := FullOf(Heading(settings), keys, m).value;
    var expected := m[SELF := Make(settings.uuid)][VERSION := Make(settings.version)];
    hide ReadingEntry, Make, Heading;
    forall w: (Text, Json)
      ensures w in Written(now, Obj(fields), []) <==> w.0 in expected && expected[w.0] == w.1
    {
      WrittenForReadings(now, settings, keys, rs, Placements(HeadingLeaves(settings), keys, m), fields, w);
      FlatEntries(keys, m, rs, w);
      WithHeading(settings, m, w);
    }
    PutsExactly(Written(now, Obj(fields), []), after, expected);
  }

  lemma WithHeading(settings: Settings, m: Fields, w: (Text, Json))
    requires SELF !in m && VERSION !in m
    ensures var expected := m[SELF := Make(settings.uuid)][VERSION := Make(settings.version)];
            (w.0 in expected && expected[w.0] == w.1) <==>
            || w == (SELF, Make(settings.uuid)) || w == (VERSION, Make(settings.version)) || (w.0 in m && m[w.0] == w.1)
  {
    assert |SELF| != |VERSION|;
  }

  lemma PutsExactly(written: set<(Text, Json)>, after: Fields, expected: Fields)
    requires Puts(map[], written, after)
    requires forall w: (Text, Json) :: w in written <==> w.0 in expected && expected[w.0] == w.1
    ensures after == expected
  {
    forall k | k in expected
      ensures k in after
    {
      assert (k, expected[k]) in written;
    }
    forall k | k in after
      ensures k in expected && expected[k] == after[k]
    {
      assert (k, after[k]) in written;
    }
  }

  lemma NoHeadingKeys(m: Fields, rs: Readings)
    requires IsFlat(m, rs) && PlainReadings(rs)
    ensures SELF !in m && VERSION !in m
  {
    forall k | k in m
      ensures k != SELF && k != VERSION
    {
      var p :| p in rs && k == KeyOf(p, rs[p]);
      assert k[|Joined(p)|] == DOT;
    }
  }

  /** The same through the two methods. */
  method RoundTrip(now: Text, settings: Settings, keys: seq<Text>, m: Fields,
      ghost rs: Readings) returns (r: Result<Fields>)
    requires Lists(keys, m) && IsFlat(m, rs) && PlainReadings(rs)
    ensures r == Ok(m[SELF := Make(settings.uuid)][VERSION := Make(settings.version)])
  {
    hide Lists, IsFlat, PlainReadings, FullOf, Written, Puts, Parses, IsTree, Placements;
    FullSucceeds(settings, keys, m, rs);
    var full := MapToFull(settings, keys, m);
    r := ParseFull(now, full.value, map[], []);
    ParseUndoesMap(now, settings, keys, m, rs, r.value);
  }
}
