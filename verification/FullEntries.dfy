/** Where the entries of the flat map stand in the full tree, and which entries the fields of a tree are read as. */
module FullEntries {
  import opened Units
  import opened JsonValues
  import opened ReaderSpec
  import opened Pointers
  import opened ArrayMerges
  import opened ArrayMerging
  import opened SignalKKeys
  import opened FullFormat
  import opened FullTrees
  import opened FullRoundTrip

  // ---------------------------------------------------------------- from the map to the tree

  /** What a key is made of: a path, and perhaps a source behind it. */
  datatype Filing = Filing(path: seq<Text>, source: Option<Text>)

  function FiledKey(f: Filing): Text {
    match f.source
    case None => Joined(f.path)
    case Some(s) => Joined(f.path) + Chars(".values.") + s
  }

  /** No segment of the path but the first is `values`. */
  predicate IsFiling(f: Filing) {
    IsPath(f.path) && forall i :: 1 <= i < |f.path| ==> f.path[i] != Chars("values")
  }

  predicate IsAttributeKey(k: Text) {
    |k| >= 5 && k[|k| - 5..] == Chars("_attr")
  }

  predicate IsSentence(v: Json) {
    v.Obj? && Chars("sentence") in v.fields
  }

  /** Where an entry is shown, and what of it. */
  function ShownAt(f: Filing, v: Json): seq<Text> {
    if IsSentence(v) then f.path + [Chars("sentence")] else f.path
  }

  function Shown(v: Json): Json {
    if IsSentence(v) then v.fields[Chars("sentence")] else v
  }

  lemma NoMarkWithin(path: seq<Text>)
    requires IsFiling(Filing(path, None))
    ensures SubstringBefore(Joined(path), DOT_VALUES_DOT) == Joined(path)
  {
    WordsSpelled();
    hide Joined, Chars;
    var t := Joined(path) + (DOT_VALUES_DOT + []);
    MarkBehindPath(path, []);
    if i :| 0 <= i <= |Joined(path)| && DOT_VALUES_DOT <= Joined(path)[i..] {
      assert t[i..] == Joined(path)[i..] + (DOT_VALUES_DOT + []);
      FirstIsFirst(t, DOT_VALUES_DOT, i);
    } else {
      Nowhere(Joined(path), DOT_VALUES_DOT);
    }
  }

  /** The index is that of the first occurrence. */
  lemma {:induction false} FirstIsFirst(t: Text, part: Text, i: nat)
    requires i <= |t| && part <= t[i..]
    ensures 0 <= IndexOf(t, part) <= i
  {
    assert t[0..] == t;
    if i > 0 {
      assert t[1..][i - 1..] == t[i..];
      FirstIsFirst(t[1..], part, i - 1);
    }
  }

  lemma PathOfKey(f: Filing)
    requires IsFiling(f)
    ensures SubstringBefore(FiledKey(f), DOT_VALUES_DOT) == Joined(f.path)
  {
    WordsSpelled();
    match f.source
    case None =>
      NoMarkWithin(f.path);
    case Some(s) =>
      MarkBehindPath(f.path, s);
      Regrouped(Joined(f.path), DOT_VALUES_DOT, s);
      assert FiledKey(f)[..|Joined(f.path)|] == Joined(f.path);
  }

  /** Attributes are left out; of an entry with a sentence only that is placed, below its path; all else at the path. */
  lemma PlacedAt(f: Filing, v: Json)
    requires IsFiling(f)
    ensures Placed(FiledKey(f), v) ==
            if IsAttributeKey(FiledKey(f)) then None else Some((Joined(ShownAt(f, v)), Shown(v)))
    ensures IsPath(ShownAt(f, v))
  {
    WordsSpelled();
    PathOfKey(f);
    assert DOT !in SENTENCE;
    assert IsSegment(SENTENCE);
    JoinedWith(f.path, SENTENCE);
    hide Joined, SubstringBefore, FiledKey;
    assert |ATTR| == 5;
  }

  lemma {:induction false} JoinedWith(path: seq<Text>, last: Text)
    requires path != []
    ensures Joined(path + [last]) == Joined(path) + [DOT] + last
  {
    if |path| == 1 {
      assert (path + [last])[1..] == [last];
    } else {
      assert (path + [last])[1..] == path[1..] + [last];
      JoinedWith(path[1..], last);
      Regrouped(path[0] + [DOT], Joined(path[1..]) + [DOT], last);
      Regrouped(path[0] + [DOT], Joined(path[1..]), [DOT]);
    }
  }

  ghost predicate AllFiled(m: Fields) {
    forall k :: k in m ==> exists f :: IsFiling(f) && FiledKey(f) == k
  }

  /** The entry is in the map, is no attribute, and is shown at the path. */
  predicate ShowsAt(m: Fields, f: Filing, path: seq<Text>) {
    IsFiling(f) && FiledKey(f) in m && !IsAttributeKey(FiledKey(f)) && ShownAt(f, m[FiledKey(f)]) == path
  }

  ghost predicate IsShown(m: Fields, path: seq<Text>) {
    exists f :: ShowsAt(m, f, path)
  }

  /** No entry is shown below another, or below `self` or `version`. */
  ghost predicate Unobstructed(m: Fields) {
    && (forall p, q :: IsShown(m, p) && IsShown(m, q) ==> p == q || Apart(p, q))
    && forall p :: IsShown(m, p) ==> |p| == 1 || (p[0] != Chars("self") && p[0] != Chars("version"))
  }

  /** The leaves of the full tree: at every path the entry with the greatest key, and the settings. */
  ghost predicate ShowsMap(settings: Settings, m: Fields, leaves: Leaves) {
    && (forall p :: p in leaves <==> IsShown(m, p) || p == [Chars("self")] || p == [Chars("version")])
    && (forall f, p :: ShowsAt(m, f, p) && (forall g :: ShowsAt(m, g, p) ==> CompareText(FiledKey(g), FiledKey(f)) <= 0) ==>
          p in leaves && leaves[p] == Shown(m[FiledKey(f)]))
    && (!IsShown(m, [Chars("self")]) ==> leaves[[Chars("self")]] == Make(settings.uuid))
    && (!IsShown(m, [Chars("version")]) ==> leaves[[Chars("version")]] == Make(settings.version))
  }

  /** A key goes where its entry is shown. */
  lemma KeyGoesTo(m: Fields, k: Text, path: seq<Text>)
    requires AllFiled(m) && k in m
    ensures GoesTo(k, m[k], path) <==> exists f :: ShowsAt(m, f, path) && FiledKey(f) == k
    ensures HasPlace(k, m[k])
  {
    hide Placed, FiledKey, ShownAt, IsFiling, Joined, Split, IsAttributeKey;
    forall f | IsFiling(f) && FiledKey(f) == k
      ensures GoesTo(k, m[k], path) <==> ShowsAt(m, f, path)
      ensures HasPlace(k, m[k])
    {
      FilingGoesTo(f, m[k], path);
    }
  }

  lemma FilingGoesTo(f: Filing, v: Json, path: seq<Text>)
    requires IsFiling(f)
    ensures GoesTo(FiledKey(f), v, path) <==> !IsAttributeKey(FiledKey(f)) && ShownAt(f, v) == path
    ensures HasPlace(FiledKey(f), v)
  {
    hide Placed, FiledKey, IsFiling, Joined, Split, IsAttributeKey, ShownAt;
    PlacedAt(f, v);
    SplitJoined(ShownAt(f, v));
    PathNotEmpty(ShownAt(f, v));
  }

  lemma PathNotEmpty(path: seq<Text>)
    requires IsPath(path)
    ensures path != []
  {
  }

  /** The paths of the leaves, besides those there were: where the keys go. */
  lemma {:induction false} PlacedPaths(leaves: Leaves, keys: seq<Text>, m: Fields, p: seq<Text>)
    requires forall k :: k in keys ==> k in m
    ensures p in Placements(leaves, keys, m) <==> p in leaves || exists k :: k in keys && GoesTo(k, m[k], p)
    ensures (forall k :: k in keys ==> !GoesTo(k, m[k], p)) && p in leaves ==> Placements(leaves, keys, m)[p] == leaves[p]
  {
    hide Placed, Split;
    if keys != [] {
      var n := |keys| - 1;
      PlacedPaths(leaves, keys[..n], m, p);
      assert keys == keys[..n] + [keys[n]];
    }
  }

  lemma ShownGoes(m: Fields, keys: seq<Text>, p: seq<Text>)
    requires AllFiled(m) && forall k :: k in keys <==> k in m
    ensures (exists k :: k in keys && GoesTo(k, m[k], p)) <==> IsShown(m, p)
    ensures IsShown(m, p) ==> p != []
  {
    hide Placed, FiledKey, IsFiling, GoesTo, ShownAt, AllFiled;
    if k :| k in keys && GoesTo(k, m[k], p) {
      KeyGoesTo(m, k, p);
    }
    if f :| ShowsAt(m, f, p) {
      KeyGoesTo(m, FiledKey(f), p);
      FilingGoesTo(f, m[FiledKey(f)], p);
      PlacedAt(f, m[FiledKey(f)]);
      PathNotEmpty(p);
    }
  }

  lemma HeadingWords(settings: Settings)
    ensures SELF == Chars("self") && VERSION == Chars("version") && [SELF] != [VERSION]
    ensures forall p :: p in HeadingLeaves(settings) <==> p == [SELF] || p == [VERSION]
    ensures HeadingLeaves(settings)[[SELF]] == Make(settings.uuid) && HeadingLeaves(settings)[[VERSION]] == Make(settings.version)
  {
    WordsSpelled();
    assert [SELF][0] != [VERSION][0] by { assert |SELF| != |VERSION|; }
  }

  /** The tree of the map holds the entries of the greatest keys, and nothing but what leads there. */
  lemma FullTreeShows(settings: Settings, keys: seq<Text>, m: Fields) returns (leaves: Leaves)
    requires Lists(keys, m) && AllFiled(m) && Unobstructed(m)
    ensures ShowsMap(settings, m, leaves)
    ensures FullOf(Heading(settings), keys, m).Ok? && IsTree(FullOf(Heading(settings), keys, m).value, leaves)
  {
    hide Placed, SetAt, IsTree, GoesTo, FiledKey, IsFiling, IsAttributeKey, ShownAt, AllFiled, Split, Ascending, Chars, HeadingLeaves, Make;
    var head := HeadingLeaves(settings);
    HeadingWords(settings);
    leaves := Placements(head, keys, m);
    forall p: seq<Text>
      ensures p in leaves <==> IsShown(m, p) || p == [SELF] || p == [VERSION]
      ensures !IsShown(m, p) && p in head ==> leaves[p] == head[p]
      ensures IsShown(m, p) ==> p != []
    {
      PlacedPaths(head, keys, m, p);
      ShownGoes(m, keys, p);
    }
    forall k | k in keys
      ensures HasPlace(k, m[k])
    {
      KeyGoesTo(m, k, []);
    }
    forall p, q | p in leaves && q in leaves
      ensures p == q || Apart(p, q)
    {
      HeadingIsApart(m, p, q);
    }
    HeadingIsTree(settings);
    TreeBuilt(Heading(settings), head, keys, m);
    hide IsShown, Heading;
    forall f, p | ShowsAt(m, f, p) && forall g :: ShowsAt(m, g, p) ==> CompareText(FiledKey(g), FiledKey(f)) <= 0
      ensures p in leaves && leaves[p] == Shown(m[FiledKey(f)])
    {
      GreatestIsShown(head, keys, m, f, p);
    }
  }

  lemma HeadingIsApart(m: Fields, p: seq<Text>, q: seq<Text>)
    requires Unobstructed(m) && p != [] && q != []
    requires IsShown(m, p) || p == [SELF] || p == [VERSION]
    requires IsShown(m, q) || q == [SELF] || q == [VERSION]
    ensures p == q || Apart(p, q)
  {
    hide IsShown;
    WordsSpelled();
    assert |SELF| != |VERSION|;
  }

  lemma GreatestIsShown(head: Leaves, keys: seq<Text>, m: Fields, f: Filing, p: seq<Text>)
    requires Lists(keys, m) && AllFiled(m) && ShowsAt(m, f, p)
    requires forall g :: ShowsAt(m, g, p) ==> CompareText(FiledKey(g), FiledKey(f)) <= 0
    ensures p in Placements(head, keys, m) && Placements(head, keys, m)[p] == Shown(m[FiledKey(f)])
  {
    hide Placed, FiledKey, IsFiling, AllFiled, Placements, ShownAt, IsAttributeKey, GoesTo;
    var k := FiledKey(f);
    assert k in keys;
    var i :| 0 <= i < |keys| && keys[i] == k;
    KeyGoesTo(m, k, p);
    assert GoesTo(keys[i], m[keys[i]], p);
    forall j | i < j < |keys|
      ensures !GoesTo(keys[j], m[keys[j]], p)
    {
      if GoesTo(keys[j], m[keys[j]], p) {
        KeyGoesTo(m, keys[j], p);
        TextFlips(keys[i], keys[j]);
      }
    }
    LastPlaced(head, keys, m, i, p);
    PlacedAt(f, m[k]);
  }

  // ---------------------------------------------------------------- from the tree to the map

  /** A value object: its value, perhaps a source and a time, and the value objects of other sources. */
  predicate IsMeasured(v: Json) {
    && v.Obj? && Chars("value") in v.fields
    && (Chars("values") in v.fields ==>
          var others := v.fields[Chars("values")];
          others.Obj? && forall s :: s in others.fields ==>
            others.fields[s].Obj? && Chars("value") in others.fields[s].fields && Chars("values") !in others.fields[s].fields)
  }

  /** The other sources of a value object. */
  function OthersOf(v: Json): Fields
    requires IsMeasured(v)
  {
    if Chars("values") in v.fields then v.fields[Chars("values")].fields else map[]
  }

  /** A text of a field, or what stands for it. */
  function FieldText(fields: Fields, name: Text, default: Text): Text {
    if name in fields && AsKey(fields[name]).Ok? then AsKey(fields[name]).value else default
  }

  /** The value object alone, with the source and the time that it lacks. */
  function EntryAlone(fields: Fields, now: Text): Json
    requires Chars("value") in fields
  {
    Obj(map[Chars("value") := fields[Chars("value")],
            Chars("$source") := Str(FieldText(fields, Chars("$source"), Chars("unknown"))),
            Chars("timestamp") := Str(FieldText(fields, Chars("timestamp"), now))])
  }

  /** The entries of what stands at a path: its own under its source, and those of the other sources as they are. */
  predicate IsEntryOf(now: Text, path: seq<Text>, v: Json, w: (Text, Json)) {
    if !v.Obj? then w == (Joined(path), v)
    else
      IsMeasured(v) &&
      (|| w == (FiledKey(Filing(path, Some(FieldText(v.fields, Chars("$source"), Chars("unknown"))))), EntryAlone(v.fields, now))
       || exists s :: s in OthersOf(v) && w == (FiledKey(Filing(path, Some(s))), OthersOf(v)[s]))
  }

  lemma MarkContained(t: Text)
    ensures Contains(t + DOT_VALUES_DOT, [DOT] + VALUES)
  {
    var whole := t + DOT_VALUES_DOT;
    assert whole[|t|..] == DOT_VALUES_DOT;
    FirstIsFirst(whole, [DOT] + VALUES, |t|);
  }

  /** Below `values` value objects become entries as they are. */
  lemma OthersWritten(now: Text, others: Fields, prefix: Text, w: (Text, Json))
    requires Contains(prefix, [DOT] + VALUES)
    requires forall s :: s in others ==> others[s].Obj? && VALUE in others[s].fields && VALUES !in others[s].fields
    ensures w in Written(now, Obj(others), prefix) <==> exists s :: s in others && w == (prefix + s, others[s])
  {
    hide Contains;
    forall s | s in others
      ensures FieldWritten(now, prefix, s, others[s]) == {(prefix + s, others[s])}
    {
    }
  }

  lemma MeasuredWritten(now: Text, path: seq<Text>, v: Json, w: (Text, Json))
    requires PlainPath(path) && (v.Obj? ==> IsMeasured(v))
    ensures w in LeafWritten(now, [], path, v) <==> IsEntryOf(now, path, v, w)
  {
    WordsSpelled();
    var n := |path| - 1;
    var prefix := [] + Dotted(path[..n]);
    assert prefix == Dotted(path[..n]);
    NoValuesInPrefix(path[..n]);
    JoinedIsDotted(path);
    var key := prefix + path[n];
    assert key == Joined(path);
    MarkContained(key);
    hide Contains, Joined, Dotted, PlainPath, Chars, AsKey;
    assert VALUE != VALUES by { assert |VALUE| != |VALUES|; }
    if v.Obj? {
      assert ValueWritten(now, prefix, path[n], v).0 == key + DOT_VALUES_DOT + FieldText(v.fields, SOURCE_REF, UNKNOWN);
      assert ValueWritten(now, prefix, path[n], v).1 == EntryAlone(v.fields, now);
      if VALUES in v.fields {
        OthersWritten(now, OthersOf(v), key + DOT_VALUES_DOT, w);
      }
    }
  }

  /** What `parseFull` makes of a tree: the entries of its leaves, whatever the order of the fields. */
  lemma TreeBecomes(now: Text, fields: Fields, leaves: Leaves, after: Fields)
    requires IsTree(fields, leaves) && PrefixFree(leaves)
    requires forall p :: p in leaves ==> PlainPath(p) && (leaves[p].Obj? ==> IsMeasured(leaves[p]))
    requires Puts(map[], Written(now, Obj(fields), []), after)
    ensures forall k :: k in after ==> exists p :: p in leaves && IsEntryOf(now, p, leaves[p], (k, after[k]))
    ensures forall p, w :: p in leaves && IsEntryOf(now, p, leaves[p], w) ==> w.0 in after
  {
    PlainLeaves(leaves);
    hide IsTree, PlainPath, IsMeasured, Written, LeafWritten, IsEntryOf, PrefixFree, WithoutValueSegments;
    forall w: (Text, Json)
      ensures w in Written(now, Obj(fields), []) <==> exists p :: p in leaves && IsEntryOf(now, p, leaves[p], w)
    {
      WrittenByLeaf(now, fields, leaves, [], w);
      forall p | p in leaves
        ensures w in LeafWritten(now, [], p, leaves[p]) <==> IsEntryOf(now, p, leaves[p], w)
      {
        LeafNotEmpty(p);
        MeasuredWritten(now, p, leaves[p], w);
      }
    }
  }

  lemma LeafNotEmpty(p: seq<Text>)
    requires PlainPath(p)
    ensures p != []
  {
  }

  lemma PlainLeaves(leaves: Leaves)
    requires forall p :: p in leaves ==> PlainPath(p)
    ensures WithoutValueSegments(leaves)
  {
  }

  predicate HasTexts(fields: Fields) {
    && (Chars("$source") in fields ==> AsKey(fields[Chars("$source")]).Ok?)
    && (Chars("timestamp") in fields ==> AsKey(fields[Chars("timestamp")]).Ok?)
  }

  /** The sources and the times of a value object are texts. */
  predicate IsRead(v: Json) {
    v.Obj? ==> IsMeasured(v) && HasTexts(v.fields) && forall s :: s in OthersOf(v) ==> HasTexts(OthersOf(v)[s].fields)
  }

  lemma MeasuredParses(v: Json)
    requires v.Obj? ==> IsMeasured(v)
    ensures FieldParses(v) <==> IsRead(v)
  {
    WordsSpelled();
    hide Chars, AsKey;
    assert VALUE != VALUES by { assert |VALUE| != |VALUES|; }
    if v.Obj? && VALUES in v.fields {
      var others := OthersOf(v);
      forall s | s in others
        ensures FieldParses(others[s]) <==> HasTexts(others[s].fields)
      {
      }
    }
  }

  lemma {:induction false} LeafParses(fields: Fields, leaves: Leaves, p: seq<Text>)
    requires IsTree(fields, leaves) && WithoutValueSegments(leaves) && PrefixFree(leaves)
    requires p in leaves && Parses(Obj(fields))
    ensures FieldParses(leaves[p])
    decreases Obj(fields)
  {
    hide IsTree, WithoutValueSegments, PrefixFree, LeavesBelow, Parses, FieldParses;
    LeafHasField(fields, leaves, p);
    var k := p[0];
    FieldOfTree(fields, leaves, k);
    FieldOfParsed(fields, k);
    if [k] in leaves {
      LeafAlone(leaves, p);
    } else {
      assert p == [k] + p[1..];
      assert p[1..] == [] ==> p == [k];
      LeavesBelowMeans(leaves, k, p[1..]);
      assert fields[k] == Obj(fields[k].fields);
      LeafParses(fields[k].fields, LeavesBelow(leaves, k), p[1..]);
    }
  }

  lemma FieldOfParsed(fields: Fields, k: Text)
    requires Parses(Obj(fields)) && k in fields
    ensures FieldParses(fields[k])
    ensures fields[k].Obj? && VALUE !in fields[k].fields ==> Parses(fields[k])
  {
  }

  lemma LeafAlone(leaves: Leaves, p: seq<Text>)
    requires PrefixFree(leaves) && p in leaves && p != [] && [p[0]] in leaves
    ensures p == [p[0]]
  {
    assert [p[0]] <= p;
  }

  /** A tree is read without an exception exactly if the sources and times of its value objects are texts. */
  lemma TreeReads(fields: Fields, leaves: Leaves)
    requires IsTree(fields, leaves) && PrefixFree(leaves)
    requires forall p :: p in leaves ==> PlainPath(p) && (leaves[p].Obj? ==> IsMeasured(leaves[p]))
    ensures Parses(Obj(fields)) <==> forall p :: p in leaves ==> IsRead(leaves[p])
  {
    PlainLeaves(leaves);
    hide IsTree, PrefixFree, PlainPath, IsMeasured, IsRead, Parses, FieldParses, WithoutValueSegments;
    forall p | p in leaves
      ensures FieldParses(leaves[p]) <==> IsRead(leaves[p])
      ensures Parses(Obj(fields)) ==> FieldParses(leaves[p])
    {
      MeasuredParses(leaves[p]);
      if Parses(Obj(fields)) {
        LeafParses(fields, leaves, p);
      }
    }
    if forall p :: p in leaves ==> FieldParses(leaves[p]) {
      TreeParses(fields, leaves);
    }
  }
}
