/** Entries that bring the values of other sources under `values`: what is saved of them, and what becomes of their sources. */
module StoreNested {
  import opened Units
  import opened JsonValues
  import opened ReaderSpec
  import opened Printer
  import opened Pointers
  import opened SignalKKeys
  import opened FullFormat
  import opened DeltaFormat
  import opened Store
  import opened StoreRuns
  import opened StoreView

  /** A value with perhaps a time, and nothing else that is saved. */
  ghost predicate IsNested(client: Client, d: Doc) {
    && d.Object? && MemberAt(d.members, Chars("value")).Some? && !MemberAt(d.members, Chars("value")).value.Object?
    && MemberAt(d.members, Chars("sentence")).None? && MemberAt(d.members, Chars("meta")).None?
    && MemberAt(d.members, Chars("values")).None? && HasTime(client, d)
  }

  predicate HasTime(client: Client, d: Doc)
    requires d.Object?
  {
    match MemberAt(d.members, Chars("timestamp"))
    case None => true
    case Some(Scalar(Str(t))) => client.millis(t).Some?
    case _ => false
  }

  function NestedTime(client: Client, d: Doc, default: int): int
    requires d.Object? && HasTime(client, d)
  {
    match MemberAt(d.members, Chars("timestamp"))
    case None => default
    case Some(Scalar(Str(t))) => client.millis(t).value
  }

  ghost predicate AreNested(client: Client, vs: seq<Member>) {
    forall i :: 0 <= i < |vs| ==> IsNested(client, vs[i].doc)
  }

  /** One call for each, by the name it has under `values`, up to `.value`, and its own time. */
  ghost function CallsFor(client: Client, k: Text, vs: seq<Member>, millis: int): (calls: seq<Call>)
    requires AreNested(client, vs)
    ensures |calls| == |vs|
  {
    seq(|vs|, i requires 0 <= i < |vs| =>
      Call(k + Chars(".value"), SubstringBefore(vs[i].key, Chars(".value")), NestedTime(client, vs[i].doc, millis),
           Of(MemberAt(vs[i].doc.members, Chars("value")).value)))
  }

  lemma NestedWords()
    ensures Chars(".value") == [DOT] + VALUE
    ensures Chars("value") == VALUE && Chars("values") == VALUES && Chars("sentence") == SENTENCE && Chars("meta") == META
    ensures Chars("timestamp") == TIMESTAMP
  {
    WordsSpelled();
  }

  lemma NestedCall(client: Client, k: Text, d: Doc, source: Text, millis: int)
    requires IsNested(client, d)
    ensures TimeOf(client, d, millis) == Ok(NestedTime(client, d, millis))
    ensures Calls(client, k, d, source, millis)
            == ([Call(k + Chars(".value"), source, millis, Of(MemberAt(d.members, Chars("value")).value))], Ok(()))
  {
    NestedWords();
    hide Chars, MemberAt, EachUnder;
    assert k + [DOT] + VALUE == k + ([DOT] + VALUE);
    var call := Call(k + [DOT] + VALUE, source, millis, Of(MemberAt(d.members, VALUE).value));
    assert [] + [] + [] + [call] == [call];
  }

  ghost function FirstCall(client: Client, k: Text, v: Member, millis: int): Call
    requires IsNested(client, v.doc)
  {
    Call(k + Chars(".value"), SubstringBefore(v.key, Chars(".value")), NestedTime(client, v.doc, millis),
         Of(MemberAt(v.doc.members, Chars("value")).value))
  }

  lemma NestedStep(client: Client, k: Text, vs: seq<Member>, millis: int)
    requires vs != [] && IsNested(client, vs[0].doc)
    ensures var (rest, end) := NestedCalls(client, k, vs[1..], millis);
            NestedCalls(client, k, vs, millis) == ([FirstCall(client, k, vs[0], millis)] + rest, end)
  {
    NestedWords();
    hide Calls, TimeOf, NestedTime, HasTime, MemberAt, Chars, SubstringBefore;
    NestedCall(client, k, vs[0].doc, SubstringBefore(vs[0].key, [DOT] + VALUE), NestedTime(client, vs[0].doc, millis));
    NestedCall(client, k, vs[0].doc, [], millis);
  }

  lemma CallsStep(client: Client, k: Text, vs: seq<Member>, millis: int)
    requires vs != [] && AreNested(client, vs)
    ensures CallsFor(client, k, vs, millis) == [FirstCall(client, k, vs[0], millis)] + CallsFor(client, k, vs[1..], millis)
  {
    hide IsNested, NestedTime, MemberAt, Chars, SubstringBefore;
  }

  lemma {:induction false} NestedCallsAre(client: Client, k: Text, vs: seq<Member>, millis: int)
    requires AreNested(client, vs)
    ensures NestedCalls(client, k, vs, millis) == (CallsFor(client, k, vs, millis), Ok(()))
  {
    hide IsNested, FirstCall;
    if vs != [] {
      hide NestedCalls, CallsFor;
      NestedCallsAre(client, k, vs[1..], millis);
      NestedStep(client, k, vs, millis);
      CallsStep(client, k, vs, millis);
    }
  }

  /** An entry with other sources: their values are saved first, in their order, and then its own. */
  lemma EntryWithOthers(client: Client, k: Text, members: seq<Member>, vs: seq<Member>, source: Text, millis: int)
    requires MemberAt(members, Chars("sentence")).None? && MemberAt(members, Chars("meta")).None?
    requires MemberAt(members, Chars("values")) == Some(Object(vs)) && AreNested(client, vs)
    requires MemberAt(members, Chars("value")).Some? && !MemberAt(members, Chars("value")).value.Object?
    ensures Calls(client, k, Object(members), source, millis)
            == (CallsFor(client, k, vs, millis) + [Call(k + Chars(".value"), source, millis, Of(MemberAt(members, Chars("value")).value))],
                Ok(()))
  {
    NestedCallsAre(client, k, vs, millis);
    NestedWords();
    hide NestedCalls, CallsFor, MemberAt, Chars, EachUnder;
    assert k + [DOT] + VALUE == k + ([DOT] + VALUE);
    assert [] + [] + CallsFor(client, k, vs, millis) == CallsFor(client, k, vs, millis);
  }

  /** An entry that is refused: its time is no time, or its `meta` is no object. */
  predicate IsRefused(client: Client, d: Doc) {
    && d.Object?
    && match MemberAt(d.members, Chars("timestamp"))
       case Some(Scalar(Str(t))) => client.millis(t).None?
       case None => MemberAt(d.members, Chars("sentence")).None? && MemberAt(d.members, Chars("meta")) == Some(Scalar(Null))
       case _ => false
  }

  function Refusal(d: Doc): Outcome
    requires d.Object?
  {
    if MemberAt(d.members, Chars("timestamp")).Some? then Err(BadOption) else Err(Unsupported)
  }

  /** The first of the other sources that is refused ends the entry; those before it are saved, its own value is not. */
  lemma {:induction false} RefusedEnds(client: Client, k: Text, vs: seq<Member>, i: nat, millis: int)
    requires i < |vs| && AreNested(client, vs[..i]) && IsRefused(client, vs[i].doc) && vs[i].doc.Object?
    ensures NestedCalls(client, k, vs, millis) == (CallsFor(client, k, vs[..i], millis), Refusal(vs[i].doc))
    decreases i
  {
    NestedWords();
    if i == 0 {
      hide Chars, MemberAt;
    } else {
      hide IsNested, FirstCall, NestedCalls, CallsFor, IsRefused, Refusal;
      assert vs[..i][1..] == vs[1..][..i - 1] && vs[1..][i - 1] == vs[i] && vs[..i][0] == vs[0];
      RefusedEnds(client, k, vs[1..], i - 1, millis);
      NestedStep(client, k, vs, millis);
      CallsStep(client, k, vs[..i], millis);
    }
  }

  lemma ValueWithoutSource(client: Client, m: Fields, r: Series, other: Option<Text>, p: Point, v: Json)
    ensures LoadValue(client, m, r.(sourceRef := other), p, v, false) == LoadValue(client, m, r, p, v, false)
  {
    hide SubstringBeforeLast, SubstringAfterLast, Extracted;
    assert KeyOfSeries(r.(sourceRef := other)) == KeyOfSeries(r);
  }

  lemma LoadedWithoutSource(client: Client, m: Fields, r: Series, other: Option<Text>, p: Point)
    requires r.primary != Some(true)
    ensures LoadSeries(client, m, r.(sourceRef := other), p) == LoadSeries(client, m, r, p)
  {
    hide SubstringBeforeLast, SubstringAfterLast, Extracted, LoadValue, Contains, EndsWith, JsonOf, AddAtPath, Segments;
    assert KeyOfSeries(r.(sourceRef := other)) == KeyOfSeries(r);
    if JsonOf(client, p).Ok? {
      ValueWithoutSource(client, m, r, other, p, JsonOf(client, p).value);
    }
    hide KeyOfSeries;
  }

  /** The value of another source is loaded as one of the source in the key: its own name is lost. */
  lemma OtherSourceIsLost(client: Client, m: Fields, s: Slot, other: Text, p: Point)
    requires IsSlot(s)
    ensures LoadSeries(client, m, SeriesFor(s, false).(sourceRef := Some(other)), p) == LoadSeries(client, m, SeriesFor(s, false), p)
  {
    SeriesKey(s, false);
    hide SeriesFor, LoadSeries, IsSlot, KeyOfSeries;
    LoadedWithoutSource(client, m, SeriesFor(s, false), Some(other), p);
  }
}
