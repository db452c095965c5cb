/** Runs of saves: whose points the store holds, and who is primary. */
module StoreRuns {
  import opened Units
  import opened SignalKKeys
  import opened DeltaFormat
  import opened Store
  import FullRoundTrip

  // ---------------------------------------------------------------- writers

  /** A source, by its segments, that writes a path of a vessel. */
  datatype Writer = Writer(path: seq<Text>, source: seq<Text>)

  /** What a writer writes at once: a value, or one field of an object value. */
  datatype Slot = Slot(writer: Writer, field: Option<Text>)

  function ValueTail(s: Slot): seq<Text> {
    if s.field.Some? then [VALUE, s.field.value] else [VALUE]
  }

  /** The segments of the key that a slot is saved under. */
  function FullPath(s: Slot): seq<Text> {
    s.writer.path + [VALUES] + (s.writer.source + ValueTail(s))
  }

  predicate FreeOf(path: seq<Text>, word: Text, from: nat) {
    forall i :: from <= i < |path| ==> path[i] != word
  }

  /** Paths and sources do not use the words that the store looks for in keys. */
  predicate IsWriter(w: Writer) {
    && IsPath(w.path) && |w.path| >= 2 && IsVesselLike(w.path[0]) && IsPath(w.source)
    && FreeOf(w.path, VALUES, 1) && FreeOf(w.path, META, 1)
    && FreeOf(w.source, VALUES, 0) && FreeOf(w.source, META, 0) && FreeOf(w.source, VALUE, 1)
    && !Blank(Joined(w.source)) && !IsAttribute(EntryKey(w))
  }

  /** The names of fields that the store takes for fields. */
  predicate IsField(name: Text) {
    IsSegment(name) && !Blank(name) && name != SENTENCE
  }

  predicate IsSlot(s: Slot) {
    IsWriter(s.writer) && (s.field.Some? ==> IsField(s.field.value))
  }

  function EntryKey(w: Writer): Text {
    Joined(w.path) + DOT_VALUES_DOT + Joined(w.source)
  }

  // ---------------------------------------------------------------- texts and segments

  lemma {:induction false} JoinedAppends(a: seq<Text>, b: seq<Text>)
    requires a != [] && b != []
    ensures Joined(a + b) == Joined(a) + [DOT] + Joined(b)
  {
    if |a| == 1 {
      assert (a + b)[1..] == b;
    } else {
      assert (a + b)[1..] == a[1..] + b;
      JoinedAppends(a[1..], b);
      Regrouped(a[0] + [DOT], Joined(a[1..]), [DOT]);
      Regrouped(a[0] + [DOT], Joined(a[1..]) + [DOT], Joined(b));
    }
  }

  lemma FullPathIsPath(s: Slot)
    requires IsSlot(s)
    ensures IsPath(FullPath(s)) && IsPath(s.writer.path) && IsPath(s.writer.source)
    ensures IsPath(ValueTail(s)) && IsPath(s.writer.source + ValueTail(s))
  {
    assert IsSegment(VALUES) && IsSegment(VALUE);
  }

  function FieldText(s: Slot): Text {
    if s.field.Some? then [DOT] + s.field.value else []
  }

  /** What stands behind the mark in a key. */
  function ValueKey(s: Slot): Text {
    Joined(s.writer.source) + ([DOT] + VALUE + FieldText(s))
  }

  lemma ValueTailIsJoined(s: Slot)
    ensures Joined(ValueTail(s)) == VALUE + FieldText(s)
  {
    var e := ValueTail(s);
    assert e[1..] == if s.field.Some? then [s.field.value] else [];
    if s.field.Some? {
      Regrouped(VALUE, [DOT], s.field.value);
    } else {
      assert VALUE + [] == VALUE;
    }
  }

  /** The key of an entry with `.value` behind it, and the name of the field. */
  lemma KeyIsJoined(s: Slot)
    requires IsSlot(s)
    ensures EntryKey(s.writer) + [DOT] + VALUE + FieldText(s) == Joined(FullPath(s))
    ensures Joined(FullPath(s)) == Joined(s.writer.path) + (DOT_VALUES_DOT + ValueKey(s))
    ensures ValueKey(s) == Joined(s.writer.source + ValueTail(s))
  {
    FullPathIsPath(s);
    ValueTailIsJoined(s);
    var p, v, q, e := s.writer.path, [VALUES], s.writer.source, ValueTail(s);
    JoinedAppends(p + v, q + e);
    JoinedAppends(p, v);
    JoinedAppends(q, e);
    assert Joined(v) == VALUES;
    hide Joined, FieldText, IsSlot, ValueTail;
    KeyGroups(Joined(p), Joined(q), FieldText(s));
  }

  lemma KeyGroups(a: Text, b: Text, f: Text)
    ensures b + [DOT] + (VALUE + f) == b + ([DOT] + VALUE + f)
    ensures a + [DOT] + VALUES + [DOT] + (b + ([DOT] + VALUE + f)) == a + (DOT_VALUES_DOT + (b + ([DOT] + VALUE + f)))
    ensures a + DOT_VALUES_DOT + b + [DOT] + VALUE + f == a + (DOT_VALUES_DOT + (b + ([DOT] + VALUE + f)))
  {
    var tail := [DOT] + VALUE + f;
    Regrouped([DOT], VALUE, f);
    Regrouped(b, [DOT], VALUE + f);
    Regrouped(b, [DOT], VALUE);
    Regrouped(a + DOT_VALUES_DOT + b, [DOT], VALUE);
    Regrouped(a + DOT_VALUES_DOT + b, [DOT] + VALUE, f);
    Regrouped(a + DOT_VALUES_DOT, b, tail);
    Regrouped(a, DOT_VALUES_DOT, b + tail);
    Regrouped(a + [DOT], VALUES, [DOT]);
    Regrouped(a, [DOT], VALUES + [DOT]);
    Regrouped([DOT], VALUES, [DOT]);
  }

  lemma {:induction false} FilledPath(path: seq<Text>)
    requires forall i :: 0 <= i < |path| ==> path[i] != []
    ensures Filled(path) == path
  {
    if path != [] {
      FilledPath(path[1..]);
    }
  }

  lemma SegmentsOfJoined(path: seq<Text>)
    requires IsPath(path)
    ensures Segments(Joined(path)) == path
  {
    PiecesOfJoined(path);
    FilledPath(path);
  }

  // ---------------------------------------------------------------- marks in joined paths

  /** The segment `i` of the path is an inner one, is the word, and its dot is at `j`. */
  predicate IsMark(path: seq<Text>, word: Text, i: int, j: int) {
    1 <= i < |path| - 1 && path[i] == word && j == |Joined(path[..i])|
  }

  lemma MarkLater(path: seq<Text>, word: Text, i: int, k: int)
    requires |path| > 1 && IsMark(path[1..], word, i, k)
    ensures IsMark(path, word, i + 1, |path[0]| + 1 + k)
  {
    assert path[i + 1] == path[1..][i];
    assert path[..i + 1][1..] == path[1..][..i];
  }

  /** A word between dots can only be an inner segment. */
  lemma {:induction false} MarkIsSegment(path: seq<Text>, word: Text, j: nat)
    requires IsPath(path) && DOT !in word
    requires j <= |Joined(path)| && [DOT] + word + [DOT] <= Joined(path)[j..]
    ensures exists i :: IsMark(path, word, i, j)
    decreases |path|
  {
    hide IsMark;
    var part, s := [DOT] + word + [DOT], path[0];
    var t := Joined(path);
    assert t[j..][0] == DOT;
    if |path| > 1 {
      var later := Joined(path[1..]);
      Regrouped(s, [DOT], later);
      assert t == s + ([DOT] + later);
      hide Joined;
      FullRoundTrip.MarkPassesSegment(s, [DOT] + later, part);
      if j == |s| {
        assert t[j..] == [DOT] + later;
        assert part[1..] == word + [DOT] && ([DOT] + later)[1..] == later;
        FullRoundTrip.TailsPrefixed(part, [DOT] + later);
        WordStarts(path[1..], word);
        SecondIsMark(path, word);
      } else {
        var k := j - |s| - 1;
        assert t[j..] == later[k..];
        MarkIsSegment(path[1..], word, k);
        var i :| IsMark(path[1..], word, i, k);
        MarkLater(path, word, i, k);
      }
    }
  }

  lemma SecondIsMark(path: seq<Text>, word: Text)
    requires |path| > 2 && path[1] == word
    ensures IsMark(path, word, 1, |path[0]|)
  {
    assert path[..1] == [path[0]];
  }

  lemma WordStarts(path: seq<Text>, word: Text)
    requires IsPath(path) && DOT !in word && word + [DOT] <= Joined(path)
    ensures |path| > 1 && path[0] == word
  {
    var s := path[0];
    if |path| == 1 {
      NotInSegment(s, word);
    } else {
      var rest := [DOT] + Joined(path[1..]);
      Regrouped(s, [DOT], Joined(path[1..]));
      if word != s {
        FullRoundTrip.WordThenDot(word, s, rest);
      }
    }
  }

  lemma NotInSegment(s: Text, word: Text)
    requires DOT !in s
    ensures !(word + [DOT] <= s)
  {
    assert (word + [DOT])[|word|] == DOT;
    assert |word| < |s| ==> s[|word|] in s;
  }

  /** No inner segment is the word: the mark is nowhere. */
  lemma NoMark(path: seq<Text>, word: Text)
    requires IsPath(path) && DOT !in word && forall i :: 1 <= i < |path| - 1 ==> path[i] != word
    ensures IndexOf(Joined(path), [DOT] + word + [DOT]) == -1 && LastIndexOf(Joined(path), [DOT] + word + [DOT]) == -1
  {
    var t, part := Joined(path), [DOT] + word + [DOT];
    forall j | 0 <= j <= |t|
      ensures !(part <= t[j..])
    {
      if part <= t[j..] {
        MarkIsSegment(path, word, j);
      }
    }
    Nowhere(t, part);
    LastNowhere(t, part);
  }

  lemma {:induction false} LastNowhere(t: Text, part: Text)
    requires forall j :: 0 <= j <= |t| ==> !(part <= t[j..])
    ensures LastIndexOf(t, part) == -1
  {
    assert t[0..] == t;
    if t != [] {
      forall j | 0 <= j <= |t| - 1
        ensures !(part <= t[1..][j..])
      {
        assert t[1..][j..] == t[j + 1..];
      }
      LastNowhere(t[1..], part);
    }
  }

  lemma {:induction false} LastAt(t: Text, part: Text, i: nat)
    requires i <= |t| && part <= t[i..] && part != [] && forall j :: i < j <= |t| ==> !(part <= t[j..])
    ensures LastIndexOf(t, part) == i
  {
    assert t[0..] == t;
    if i > 0 {
      assert t[1..][i - 1..] == t[i..];
      forall j | i - 1 < j <= |t| - 1
        ensures !(part <= t[1..][j..])
      {
        assert t[1..][j..] == t[j + 1..];
      }
      LastAt(t[1..], part, i - 1);
    } else if t != [] {
      forall j | 0 <= j <= |t| - 1
        ensures !(part <= t[1..][j..])
      {
        assert t[1..][j..] == t[j + 1..];
      }
      LastNowhere(t[1..], part);
    }
  }

  lemma InnerSegments(s: Slot, i: nat)
    requires 1 <= i < |FullPath(s)| - 1 && |s.writer.path| >= 1
    ensures var n, m := |s.writer.path|, |s.writer.source|;
            FullPath(s)[i] == if i < n then s.writer.path[i] else if i == n then VALUES
                              else if i <= n + m then s.writer.source[i - n - 1] else VALUE
  {
  }

  /** The only mark in the key of a slot is the one behind its path. */
  lemma MarkInKey(s: Slot)
    requires IsSlot(s)
    ensures var t := Joined(FullPath(s));
            IndexOf(t, DOT_VALUES_DOT) == |Joined(s.writer.path)| && LastIndexOf(t, DOT_VALUES_DOT) == |Joined(s.writer.path)|
  {
    var full := FullPath(s);
    var t, n := Joined(full), |Joined(s.writer.path)|;
    FullPathIsPath(s);
    KeyIsJoined(s);
    assert DOT_VALUES_DOT <= t[n..];
    assert DOT !in VALUES && |VALUES| != |VALUE|;
    forall j | 0 <= j <= |t| && DOT_VALUES_DOT <= t[j..]
      ensures j == n
    {
      assert DOT_VALUES_DOT == [DOT] + VALUES + [DOT];
      MarkIsSegment(full, VALUES, j);
      var i :| IsMark(full, VALUES, i, j);
      InnerSegments(s, i);
      assert i == |s.writer.path|;
      assert full[..i] == s.writer.path;
    }
    FirstAt(t, DOT_VALUES_DOT, n);
    LastAt(t, DOT_VALUES_DOT, n);
  }

  // ---------------------------------------------------------------- what a key says

  /** What the service reads out of the key of a slot. */
  lemma KeyReadBack(s: Slot)
    requires IsSlot(s)
    ensures var key := Joined(FullPath(s));
            && Segments(key) == FullPath(s)
            && PrimaryKey(key) == Joined(s.writer.path)
            && Contains(key, DOT_VALUES_DOT) && !Contains(key, DOT_META_DOT) && !EndsWith(key, [DOT] + SENTENCE)
            && SubstringBeforeLast(key, DOT_VALUES_DOT) == Joined(s.writer.path)
            && SubstringAfterLast(key, DOT_VALUES_DOT) == ValueKey(s)
  {
    hide IndexOf, LastIndexOf;
    var full := FullPath(s);
    var key, path := Joined(full), Joined(s.writer.path);
    FullPathIsPath(s);
    SegmentsOfJoined(full);
    KeyIsJoined(s);
    MarkInKey(s);
    assert key[..|path|] == path;
    assert key[|path| + |DOT_VALUES_DOT|..] == ValueKey(s);
    NoMetaInside(s);
    NoMark(full, META);
    assert DOT_META_DOT == [DOT] + META + [DOT];
    EndsInValue(s);
  }

  lemma NoMetaInside(s: Slot)
    requires IsSlot(s)
    ensures forall i :: 1 <= i < |FullPath(s)| - 1 ==> FullPath(s)[i] != META
    ensures DOT !in META
  {
    forall i | 1 <= i < |FullPath(s)| - 1
      ensures FullPath(s)[i] != META
    {
      InnerSegments(s, i);
      assert |VALUES| != |META| && |VALUE| != |META|;
    }
  }

  /** The last segment of a text is the word, if the text ends in the word behind a dot. */
  lemma LastSegment(before: Text, last: Text, word: Text)
    requires DOT !in last && DOT !in word && last != word
    ensures !EndsWith(before + [DOT] + last, [DOT] + word)
  {
    var t, part := before + [DOT] + last, [DOT] + word;
    var n := |before|;
    if |part| <= |t| {
      var k := |t| - |part|;
      assert t[n] == DOT && part[0] == DOT;
      if k > n {
        assert t[k..][0] == t[k] == last[k - n - 1];
      } else if k < n {
        assert t[k..][n - k] == t[n] && part[n - k] == word[n - k - 1];
      } else {
        assert t[k..][1..] == last && part[1..] == word;
      }
    }
  }

  lemma EndsInValue(s: Slot)
    requires IsSlot(s)
    ensures !EndsWith(Joined(FullPath(s)), [DOT] + SENTENCE)
  {
    hide EndsWith;
    KeyIsJoined(s);
    var key := EntryKey(s.writer);
    assert DOT !in SENTENCE && DOT !in VALUE && |SENTENCE| != |VALUE|;
    if s.field.Some? {
      Regrouped(key + [DOT] + VALUE, [DOT], s.field.value);
      LastSegment(key + [DOT] + VALUE, s.field.value, SENTENCE);
    } else {
      assert key + [DOT] + VALUE + [] == key + [DOT] + VALUE;
      LastSegment(key, VALUE, SENTENCE);
    }
  }

  /** The key of the node that shows a slot among the other sources: for a field it still has `.value` at its end. */
  function NodeKey(s: Slot): Text {
    if s.field.Some? then Joined(s.writer.source) + DOT_VALUE else Joined(s.writer.source)
  }

  lemma LastDot(before: Text, last: Text)
    requires DOT !in last
    ensures SubstringBeforeLast(before + [DOT] + last, [DOT]) == before
  {
    var t, n := before + [DOT] + last, |before|;
    assert t[n..][0] == DOT;
    forall j | n < j <= |t|
      ensures !([DOT] <= t[j..])
    {
      assert j < |t| ==> t[j..][0] == last[j - n - 1];
    }
    LastAt(t, [DOT], n);
    assert t[..n] == before;
  }

  /** Behind the mark: the source, and the field of the value if it has fields. */
  lemma SourceReadBack(s: Slot)
    requires IsSlot(s)
    ensures SubstringBeforeLast(ValueKey(s), [DOT]) == NodeKey(s)
    ensures SubstringAfterLast(ValueKey(s), DOT_VALUE_DOT) == if s.field.Some? then s.field.value else []
  {
    hide LastIndexOf;
    var source := Joined(s.writer.source);
    FullPathIsPath(s);
    KeyIsJoined(s);
    assert DOT !in VALUE;
    if s.field.Some? {
      var f := s.field.value;
      FieldKeyGroups(source, f);
      LastDot(source + DOT_VALUE, f);
      FieldReadBack(s);
    } else {
      assert ValueKey(s) == source + [DOT] + VALUE;
      LastDot(source, VALUE);
      var path := s.writer.source + ValueTail(s);
      forall i | 1 <= i < |path| - 1
        ensures path[i] != VALUE
      {
        assert path[i] == s.writer.source[i];
      }
      NoMark(path, VALUE);
    }
  }

  lemma FieldKeyGroups(a: Text, f: Text)
    ensures a + ([DOT] + VALUE + ([DOT] + f)) == a + (DOT_VALUE_DOT + f)
    ensures a + ([DOT] + VALUE + ([DOT] + f)) == a + DOT_VALUE + [DOT] + f
  {
    Regrouped([DOT] + VALUE, [DOT], f);
    Regrouped(a, DOT_VALUE, [DOT] + f);
    Regrouped(a + DOT_VALUE, [DOT], f);
  }

  lemma FieldReadBack(s: Slot)
    requires IsSlot(s) && s.field.Some?
    ensures SubstringAfterLast(ValueKey(s), DOT_VALUE_DOT) == s.field.value
  {
    var path := s.writer.source + ValueTail(s);
    var t, n := Joined(path), |Joined(s.writer.source)|;
    FullPathIsPath(s);
    KeyIsJoined(s);
    FieldKeyGroups(Joined(s.writer.source), s.field.value);
    assert DOT_VALUE_DOT <= t[n..];
    assert DOT !in VALUE;
    forall j | 0 <= j <= |t| && DOT_VALUE_DOT <= t[j..]
      ensures j == n
    {
      assert DOT_VALUE_DOT == [DOT] + VALUE + [DOT];
      MarkIsSegment(path, VALUE, j);
      var i :| IsMark(path, VALUE, i, j);
      assert i < |s.writer.source| ==> path[i] == s.writer.source[i];
      assert path[..|s.writer.source|] == s.writer.source;
    }
    LastAt(t, DOT_VALUE_DOT, n);
    assert t[n + |DOT_VALUE_DOT|..] == s.field.value;
    hide LastIndexOf, Joined;
    assert SubstringAfterLast(t, DOT_VALUE_DOT) == s.field.value;
  }

  // ---------------------------------------------------------------- series

  function SeriesFor(s: Slot, primary: bool): Series
    requires IsSlot(s)
  {
    SeriesOf(FullPath(s), primary, Joined(s.writer.source))
  }

  lemma SeriesKey(s: Slot, primary: bool)
    requires IsSlot(s)
    ensures var r := SeriesFor(s, primary);
            && KeyOfSeries(r) == Joined(FullPath(s)) && r.primary == Some(primary) && r.sourceRef == Some(Joined(s.writer.source))
  {
    var full := FullPath(s);
    assert full[0] == s.writer.path[0] && full[1] == s.writer.path[1];
    Vessels(s.writer.path[0]);
    assert full == full[..1] + full[1..] && full[1..] == [full[1]] + full[2..];
    var r := SeriesFor(s, primary);
    assert r == Series(full[0], Some(full[1]), Joined(full[2..]), Some(primary), Some(Joined(s.writer.source)));
    assert full[1..][1..] == full[2..];
    var a, b, c := full[0], full[1], Joined(full[2..]);
    assert Joined(full) == a + [DOT] + (b + [DOT] + c);
    assert a + [DOT] + (b + [DOT] + c) == a + [DOT] + b + [DOT] + c;
  }

  lemma Vessels(name: Text)
    requires IsVesselLike(name)
    ensures name != RESOURCES && name != SOURCES && name != CONFIG && name != VALUES
  {
    assert name[0] != RESOURCES[0] && name != CONFIG;
    assert |SAR| == 3 && |VESSELS| == 7 && |AIRCRAFT| == 8 && |ATON| == 4 && |VALUES| == 6 && |SOURCES| == 7;
    assert VESSELS[0] != SOURCES[0];
  }

  /** The series tells the writer, and the field if there is one. */
  lemma SeriesDiffer(s: Slot, r: Slot, p: bool, q: bool)
    requires IsSlot(s) && IsSlot(r) && SeriesFor(s, p) == SeriesFor(r, q)
    ensures s == r && p == q
  {
    SeriesKey(s, p);
    SeriesKey(r, q);
    FullPathIsPath(s);
    FullPathIsPath(r);
    JoinedInjective(FullPath(s), FullPath(r));
    FullPathsDiffer(s, r);
  }

  /** What stands before the first occurrence of a word in a list of segments, from an index on. */
  lemma SplitAt(full: seq<Text>, word: Text, from: nat, a: seq<Text>, b: seq<Text>)
    requires from <= |a| < |full| && from <= |b| < |full| && a <= full && b <= full
    requires full[|a|] == word && full[|b|] == word && FreeOf(a, word, from) && FreeOf(b, word, from)
    ensures a == b
  {
    assert forall i :: from <= i < |a| ==> full[i] == a[i] != word;
    assert forall i :: from <= i < |b| ==> full[i] == b[i] != word;
    assert |a| == |b| && a == full[..|a|];
  }

  lemma FullPathsDiffer(s: Slot, r: Slot)
    requires IsSlot(s) && IsSlot(r) && FullPath(s) == FullPath(r)
    ensures s == r
  {
    var full := FullPath(s);
    Vessels(s.writer.path[0]);
    Vessels(r.writer.path[0]);
    assert FullPath(s)[|s.writer.path|] == VALUES && FullPath(r)[|r.writer.path|] == VALUES;
    SplitAt(full, VALUES, 1, s.writer.path, r.writer.path);
    var rest := full[|s.writer.path| + 1..];
    assert rest == s.writer.source + ValueTail(s) && rest == r.writer.source + ValueTail(r);
    SplitAt(rest, VALUE, 1, s.writer.source, r.writer.source);
    assert rest[|s.writer.source|..] == ValueTail(s) && rest[|s.writer.source|..] == ValueTail(r);
    if s.field.Some? || r.field.Some? {
      assert ValueTail(s)[1] == ValueTail(r)[1];
    }
  }
}
