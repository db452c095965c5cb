/** Runs of saves of every kind: objects with values, plain values and arrays, sentences and meta data. */
module StoreMixed {
  import opened Units
  import opened JsonValues
  import opened Printer
  import opened SignalKKeys
  import opened FullFormat
  import opened DeltaFormat
  import opened Store
  import opened StoreRuns
  import opened StoreView
  import opened StoreLoad
  import opened StoreBack
  import opened StoreSides

  // ---------------------------------------------------------------- saves

  /** A save: of an entry of a writer, or of a plain entry at a reading of the clock. */
  datatype Saving = OfEntry(sent: Sent) | OfPlain(path: seq<Text>, doc: Doc, now: int)

  ghost predicate AreMeta(client: Client, ms: seq<Member>) {
    forall i :: 0 <= i < |ms| ==> IsMetaName(ms[i].key) && IsStorable(client, ms[i].doc)
  }

  /** An entry with a value, its source and its time; it may have a sentence and meta data. */
  ghost predicate IsRich(client: Client, s: Sent) {
    && IsWriter(s.writer) && IsValue(client, s.value) && client.millis(s.time).Some? && s.doc.Object?
    && var ms := s.doc.members;
       && MemberAt(ms, VALUE) == Some(s.value)
       && MemberAt(ms, SOURCE_REF) == Some(Scalar(Str(Joined(s.writer.source))))
       && MemberAt(ms, TIMESTAMP) == Some(Scalar(Str(s.time))) && MemberAt(ms, VALUES) == None
       && (MemberAt(ms, SENTENCE).Some? ==> IsStorable(client, MemberAt(ms, SENTENCE).value))
       && (MemberAt(ms, META).Some? ==> MemberAt(ms, META).value.Object? && AreMeta(client, MemberAt(ms, META).value.members))
       && (MemberAt(ms, SENTENCE).Some? || MemberAt(ms, META).Some? ==> s.value != Object([]))
  }

  /** A plain value that comes back: null does not. */
  ghost predicate IsPlainSave(client: Client, path: seq<Text>, doc: Doc) {
    IsPlainPath(path) && IsStorable(client, doc) && doc != Scalar(Null)
  }

  ghost predicate IsSaving(client: Client, x: Saving) {
    match x
    case OfEntry(s) => IsRich(client, s)
    case OfPlain(path, doc, _) => IsPlainSave(client, path, doc)
  }

  ghost predicate AllSavings(client: Client, run: seq<Saving>) {
    forall i :: 0 <= i < |run| ==> IsSaving(client, run[i])
  }

  /** The database after a run, each entry saved as `save` does it. */
  function MixedRun(client: Client, run: seq<Saving>, now: int): Db {
    if run == [] then Db(map[], map[])
    else
      var n := |run| - 1;
      var before := MixedRun(client, run[..n], now);
      match run[n]
      case OfEntry(s) => EntrySaved(client, before, EntryKey(s.writer), s.doc, now).0
      case OfPlain(path, doc, time) => EntrySaved(client, before, Joined(path), doc, time).0
  }

  /** The entries of a run without what is saved beside their values. */
  function Core(run: seq<Saving>): seq<Sent> {
    if run == [] then []
    else
      var n := |run| - 1;
      match run[n]
      case OfEntry(s) => Core(run[..n]) + [SentBy(s.writer, s.value, s.time)]
      case OfPlain(_, _, _) => Core(run[..n])
  }

  /** What is saved beside: where, what, and at which time. */
  datatype SidePut = SidePut(side: Side, doc: Doc, millis: int)

  ghost predicate AllSides(client: Client, xs: seq<SidePut>) {
    forall i :: 0 <= i < |xs| ==> IsSide(xs[i].side) && IsStorable(client, xs[i].doc)
  }

  ghost function SidesOf(client: Client, x: Saving): (xs: seq<SidePut>)
    requires IsSaving(client, x)
    ensures AllSides(client, xs)
  {
    match x
    case OfPlain(path, doc, now) => [SidePut(Plain(path), doc, now)]
    case OfEntry(s) =>
      var millis := client.millis(s.time).value;
      (match MemberAt(s.doc.members, SENTENCE)
       case None => []
       case Some(d) => [SidePut(Sentence(s.writer), d, millis)])
      + MetaOf(s.writer, MemberAt(s.doc.members, META), millis)
  }

  function MetaOf(w: Writer, meta: Option<Doc>, millis: int): (xs: seq<SidePut>)
    ensures |xs| == if meta.Some? && meta.value.Object? then |meta.value.members| else 0
    ensures forall i :: 0 <= i < |xs| ==> xs[i] == SidePut(Meta(w, meta.value.members[i].key), meta.value.members[i].doc, millis)
  {
    if meta.Some? && meta.value.Object?
    then
      var ms := meta.value.members;
      seq(|ms|, i requires 0 <= i < |ms| => SidePut(Meta(w, ms[i].key), ms[i].doc, millis))
    else []
  }

  ghost function RunSides(client: Client, run: seq<Saving>): (xs: seq<SidePut>)
    requires AllSavings(client, run)
    ensures AllSides(client, xs)
  {
    if run == [] then []
    else
      var n := |run| - 1;
      RunSides(client, run[..n]) + SidesOf(client, run[n])
  }

  /** The latest point of a side. */
  ghost function LatestSide(client: Client, xs: seq<SidePut>, x: Side): Option<Point>
    requires AllSides(client, xs)
  {
    if xs == [] then None
    else
      var n := |xs| - 1;
      var before := LatestSide(client, xs[..n], x);
      if xs[n].side != x then before
      else
        StorableReadsBack(client, xs[n].doc, xs[n].millis);
        var p := PointFor(client, Of(xs[n].doc), xs[n].millis);
        Some(if before.Some? then Later(before.value, p) else p)
  }

  lemma {:induction false} LatestSideReads(client: Client, xs: seq<SidePut>, x: Side)
    requires AllSides(client, xs) && LatestSide(client, xs, x).Some?
    ensures CellsRead(client, LatestSide(client, xs, x).value) && JsonOf(client, LatestSide(client, xs, x).value).Ok?
    ensures IsSide(x)
  {
    hide CellsRead, IsStorable, IsSide, Later, PointFor, JsonOf;
    var n := |xs| - 1;
    StorableReadsBack(client, xs[n].doc, xs[n].millis);
    if LatestSide(client, xs[..n], x).Some? {
      LatestSideReads(client, xs[..n], x);
      LaterCells(client, LatestSide(client, xs[..n], x).value, PointFor(client, Of(xs[n].doc), xs[n].millis));
    }
    CellsReadable(client, LatestSide(client, xs, x).value);
  }

  /** The series of a side is marked primary if its source was the first of the path; a plain entry has no other source. */
  predicate SideFlag(puts: seq<Put>, x: Side) {
    x.Plain? || IsFirst(puts, x.writer)
  }

  ghost predicate SidesKept(client: Client, puts: seq<Put>, xs: seq<SidePut>, points: Points)
    requires AllSides(client, xs)
  {
    && (forall x :: IsSide(x) && LatestSide(client, xs, x).Some? ==>
          var r := SideSeries(x, SideFlag(puts, x)); r in points && points[r] == LatestSide(client, xs, x).value)
    && forall r :: r in points ==>
         exists x :: IsSide(x) && LatestSide(client, xs, x).Some? && r == SideSeries(x, SideFlag(puts, x))
  }

  /** The plain entries have each elected `self`. */
  function PlainVotes(xs: seq<SidePut>): map<Text, Text> {
    if xs == [] then map[]
    else
      var n := |xs| - 1;
      var before := PlainVotes(xs[..n]);
      if xs[n].side.Plain? then before[Joined(xs[n].side.path) := SELF] else before
  }

  // ---------------------------------------------------------------- two stores side by side

  lemma ElectedBeside(e: map<Text, Text>, v: map<Text, Text>, key: Text, source: Text)
    requires PrimaryKey(key) !in v
    ensures Elected(e + v, key, source) == Elected(e, key, source) + v
  {
    hide PrimaryKey;
  }

  lemma WriteBeside(a: Points, b: Points, r: Series, p: Point)
    requires a.Keys !! b.Keys
    ensures r !in b ==> Write(a + b, r, p) == Write(a, r, p) + b
    ensures r !in a ==> Write(a + b, r, p) == a + Write(b, r, p)
  {
    hide Later;
  }

  function SideCall(x: SidePut): Call {
    Call(Joined(SidePath(x.side)), SideSource(x.side), x.millis, Of(x.doc))
  }

  function SideCalls(xs: seq<SidePut>): (calls: seq<Call>)
    ensures |calls| == |xs| && forall i :: 0 <= i < |xs| ==> calls[i] == SideCall(xs[i])
  {
    seq(|xs|, i requires 0 <= i < |xs| => SideCall(xs[i]))
  }

  lemma LatestPush(client: Client, xs: seq<SidePut>, p: SidePut, x: Side)
    requires AllSides(client, xs) && AllSides(client, xs + [p])
    ensures IsSaved(client, Of(p.doc)) && IsSide(p.side)
    ensures LatestSide(client, xs + [p], x) ==
            var before, q := LatestSide(client, xs, x), PointFor(client, Of(p.doc), p.millis);
            if p.side != x then before else Some(if before.Some? then Later(before.value, q) else q)
  {
    var all := xs + [p];
    assert all[|xs|] == p && all[..|xs|] == xs;
    StorableReadsBack(client, p.doc, p.millis);
    hide IsSide, IsStorable, Later, PointFor, IsSaved;
  }

  /** One side more. */
  lemma SideKept(client: Client, puts: seq<Put>, xs: seq<SidePut>, p: SidePut, points: Points)
    requires AllSides(client, xs) && AllSides(client, xs + [p]) && SidesKept(client, puts, xs, points)
    ensures IsSaved(client, Of(p.doc)) && IsSide(p.side)
    ensures SidesKept(client, puts, xs + [p],
              Write(points, SideSeries(p.side, SideFlag(puts, p.side)), PointFor(client, Of(p.doc), p.millis)))
  {
    var all := xs + [p];
    LatestPush(client, xs, p, p.side);
    hide IsSide, IsStorable, Later, PointFor, SideFlag, SideSeries, CellsRead, IsSaved, AllSides, LatestSide;
    var r := SideSeries(p.side, SideFlag(puts, p.side));
    var after := Write(points, r, PointFor(client, Of(p.doc), p.millis));
    forall x | IsSide(x) && LatestSide(client, all, x).Some?
      ensures SideSeries(x, SideFlag(puts, x)) in after && after[SideSeries(x, SideFlag(puts, x))] == LatestSide(client, all, x).value
    {
      LatestPush(client, xs, p, x);
      if x != p.side {
        OtherSide(client, puts, x, p.side);
      } else if LatestSide(client, xs, x).None? {
        SideNotYet(client, puts, xs, x, points);
      }
    }
    forall q | q in after
      ensures exists x :: IsSide(x) && LatestSide(client, all, x).Some? && q == SideSeries(x, SideFlag(puts, x))
    {
      if q != r {
        var x :| IsSide(x) && LatestSide(client, xs, x).Some? && q == SideSeries(x, SideFlag(puts, x));
        LatestPush(client, xs, p, x);
      }
    }
  }

  lemma OtherSide(client: Client, puts: seq<Put>, x: Side, y: Side)
    requires IsSide(x) && IsSide(y) && x != y
    ensures SideSeries(x, SideFlag(puts, x)) != SideSeries(y, SideFlag(puts, y))
  {
    hide IsSide, SideFlag, SideSeries;
    if SideSeries(x, SideFlag(puts, x)) == SideSeries(y, SideFlag(puts, y)) {
      SideSeriesDiffer(x, y, SideFlag(puts, x), SideFlag(puts, y));
    }
  }

  lemma SideNotYet(client: Client, puts: seq<Put>, xs: seq<SidePut>, x: Side, points: Points)
    requires AllSides(client, xs) && SidesKept(client, puts, xs, points) && IsSide(x) && LatestSide(client, xs, x).None?
    ensures SideSeries(x, SideFlag(puts, x)) !in points
  {
    hide IsSide, IsStorable, SideFlag, SideSeries, LatestSide;
    var r := SideSeries(x, SideFlag(puts, x));
    if r in points {
      var y :| IsSide(y) && LatestSide(client, xs, y).Some? && r == SideSeries(y, SideFlag(puts, y));
      SideSeriesDiffer(x, y, SideFlag(puts, x), SideFlag(puts, y));
    }
  }

  lemma SlotsOnly(client: Client, puts: seq<Put>, points: Points, x: Side, flag: bool)
    requires AllSendable(client, puts) && Keeps(client, puts, points) && IsSide(x)
    ensures SideSeries(x, flag) !in points
  {
    hide IsSide, IsSlot, SideSeries, SeriesFor, Latest, IsFirst;
    if SideSeries(x, flag) in points {
      var s :| WasPut(client, puts, s) && SideSeries(x, flag) == SeriesIn(puts, s);
      SideIsNoSlot(x, s, flag, IsFirst(puts, s.writer));
    }
  }

  lemma SidesOnly(client: Client, puts: seq<Put>, xs: seq<SidePut>, points: Points, s: Slot, flag: bool)
    requires AllSides(client, xs) && SidesKept(client, puts, xs, points) && IsSlot(s)
    ensures SeriesFor(s, flag) !in points
  {
    hide IsSide, IsSlot, SideSeries, SeriesFor, LatestSide, SideFlag;
    if SeriesFor(s, flag) in points {
      var x :| IsSide(x) && LatestSide(client, xs, x).Some? && SeriesFor(s, flag) == SideSeries(x, SideFlag(puts, x));
      SideIsNoSlot(x, s, SideFlag(puts, x), flag);
    }
  }

  lemma PointsApart(client: Client, puts: seq<Put>, xs: seq<SidePut>, a: Points, b: Points, later: seq<Put>)
    requires AllSendable(client, puts) && AllSides(client, xs) && Keeps(client, puts, a) && SidesKept(client, later, xs, b)
    ensures a.Keys !! b.Keys
  {
    hide IsSide, IsSlot, SideSeries, SeriesFor, LatestSide, SideFlag, Latest;
    forall r | r in b
      ensures r !in a
    {
      var x :| IsSide(x) && LatestSide(client, xs, x).Some? && r == SideSeries(x, SideFlag(later, x));
      SlotsOnly(client, puts, a, x, SideFlag(later, x));
    }
  }

  /** The calls for the sides of one writer, once its source is elected. */
  lemma {:induction false} SidesBeside(client: Client, puts: seq<Put>, later: seq<Put>, w: Writer, core: Db, xs: seq<SidePut>,
      b: Points, v: map<Text, Text>, more: seq<SidePut>) returns (after: Points)
    requires AllSendable(client, puts) && Keeps(client, puts, core.points)
    requires AllSides(client, xs) && SidesKept(client, later, xs, b)
    requires AllSides(client, more) && forall i :: 0 <= i < |more| ==> !more[i].side.Plain? && more[i].side.writer == w
    requires Joined(w.path) in core.primaries && Joined(w.path) !in v
    requires core.primaries[Joined(w.path)] == Joined(w.source) <==> IsFirst(later, w)
    ensures AllSides(client, xs + more) && SidesKept(client, later, xs + more, after)
    ensures SaveAll(client, Db(core.points + b, core.primaries + v), SideCalls(more))
            == (Db(core.points + after, core.primaries + v), Ok(()))
    decreases |more|
  {
    hide IsSide, IsStorable, SideSeries, LatestSide, IsFirst, Keeps, SidesKept, SidePath, AllSendable, Joined, SaveData, PrimaryKey;
    if more == [] {
      after := b;
      assert xs + more == xs;
    } else {
      var n := |more| - 1;
      var p := more[n];
      assert SideCalls(more)[..n] == SideCalls(more[..n]);
      assert more[..n] + [p] == more;
      Regrouped(xs, more[..n], [p]);
      var before := SidesBeside(client, puts, later, w, core, xs, b, v, more[..n]);
      var db := Db(core.points + before, core.primaries + v);
      SideKept(client, later, xs + more[..n], p, before);
      SideIsWritten(client, db, p.side, Of(p.doc), p.millis);
      PointsApart(client, puts, xs + more[..n], core.points, before, later);
      SlotsOnly(client, puts, core.points, p.side, SideFlag(later, p.side));
      var r := SideSeries(p.side, SideFlag(later, p.side));
      after := Write(before, r, PointFor(client, Of(p.doc), p.millis));
      WriteBeside(core.points, before, r, PointFor(client, Of(p.doc), p.millis));
      OneMoreSide(client, db, p, w, core, v, later);
    }
  }

  lemma OneMoreSide(client: Client, db: Db, p: SidePut, w: Writer, core: Db, v: map<Text, Text>, later: seq<Put>)
    requires IsSide(p.side) && !p.side.Plain? && p.side.writer == w && IsSaved(client, Of(p.doc))
    requires db.primaries == core.primaries + v && Joined(w.path) in core.primaries && Joined(w.path) !in v
    requires core.primaries[Joined(w.path)] == Joined(w.source) <==> IsFirst(later, w)
    ensures var primaries := Elected(db.primaries, Joined(Electing(p.side)), SideSource(p.side));
            && primaries == db.primaries && Joined(Electing(p.side)) in primaries
            && (primaries[Joined(Electing(p.side))] == SideSource(p.side) <==> SideFlag(later, p.side))
  {
    hide IsFirst, Joined, PrimaryKey, IsSide;
    ElectsItself(p.side);
  }

  /** Calls for slots go by the sides. */
  lemma {:induction false} SlotsBeside(client: Client, puts: seq<Put>, later: seq<Put>, core: Db, xs: seq<SidePut>,
      b: Points, v: map<Text, Text>, more: seq<Put>)
    requires AllSendable(client, puts) && Reflects(client, puts, core)
    requires AllSides(client, xs) && SidesKept(client, later, xs, b)
    requires AllSendable(client, more) && forall i :: 0 <= i < |more| ==> Joined(more[i].slot.writer.path) !in v
    ensures var (after, end) := SaveAll(client, core, CallsOf(more));
            SaveAll(client, Db(core.points + b, core.primaries + v), CallsOf(more)) == (Db(after.points + b, after.primaries + v), end)
    decreases |more|
  {
    hide Sendable, Reflects, SaveData, CallOf, SidesKept, Joined;
    if more != [] {
      var n := |more| - 1;
      SlotsBeside(client, puts, later, core, xs, b, v, more[..n]);
      WritesHold(client, puts, more[..n], core);
      assert CallsOf(more)[..n] == CallsOf(more[..n]);
      SlotBeside(client, puts + more[..n], later, SaveAll(client, core, CallsOf(more[..n])).0, xs, b, v, more[n]);
    }
  }

  lemma SlotBeside(client: Client, puts: seq<Put>, later: seq<Put>, core: Db, xs: seq<SidePut>, b: Points, v: map<Text, Text>,
      p: Put)
    requires AllSendable(client, puts) && Reflects(client, puts, core) && Sendable(client, p)
    requires AllSides(client, xs) && SidesKept(client, later, xs, b) && Joined(p.slot.writer.path) !in v
    ensures var (after, end) := SaveData(client, core, CallOf(p));
            SaveData(client, Db(core.points + b, core.primaries + v), CallOf(p)) == (Db(after.points + b, after.primaries + v), end)
  {
    var w := p.slot.writer;
    var full := Db(core.points + b, core.primaries + v);
    var key, source := Joined(FullPath(p.slot)), Joined(w.source);
    SaveIsWrite(client, core, p);
    SaveIsWrite(client, full, p);
    hide IsSlot, SaveData, CallOf, SidesKept, Joined, PrimaryKey, FullPath, SeriesFor, PointOf, Keeps, AllVoted, Storable;
    ElectedBeside(core.primaries, v, key, source);
    var e := Elected(core.primaries, key, source);
    var flag := e[Joined(w.path)] == source;
    PointsApart(client, puts, xs, core.points, b, later);
    SidesOnly(client, later, xs, b, p.slot, flag);
    WriteBeside(core.points, b, SeriesFor(p.slot, flag), PointOf(client, p));
  }

  // ---------------------------------------------------------------- electing first

  /** A call that elects the source for the path before it does anything else. */
  ghost predicate ElectsFirst(client: Client, c: Call, path: Text, source: Text) {
    forall db: Db :: SaveData(client, db, c) == SaveData(client, db.(primaries := Elected(db.primaries, path, source)), c)
  }

  lemma {:induction false} ElectedFirst(client: Client, db: Db, calls: seq<Call>, path: Text, source: Text)
    requires calls != [] && ElectsFirst(client, calls[0], path, source)
    ensures SaveAll(client, db, calls) == SaveAll(client, db.(primaries := Elected(db.primaries, path, source)), calls)
  {
    hide SaveData, Elected;
    var n := |calls| - 1;
    if n == 0 {
      assert calls[..0] == [];
    } else {
      ElectedFirst(client, db, calls[..n], path, source);
    }
  }

  lemma SideElectsFirst(client: Client, x: SidePut)
    requires IsSide(x.side) && IsStorable(client, x.doc)
    ensures ElectsFirst(client, SideCall(x), Joined(Electing(x.side)), SideSource(x.side))
  {
    StorableReadsBack(client, x.doc, x.millis);
    hide SaveData, IsSide, IsStorable, Joined, PrimaryKey, SideSeries, SidePath;
    forall db: Db
      ensures SaveData(client, db, SideCall(x))
              == SaveData(client, db.(primaries := Elected(db.primaries, Joined(Electing(x.side)), SideSource(x.side))), SideCall(x))
    {
      SideIsWritten(client, db, x.side, Of(x.doc), x.millis);
      SideIsWritten(client, db.(primaries := Elected(db.primaries, Joined(Electing(x.side)), SideSource(x.side))), x.side, Of(x.doc), x.millis);
    }
  }

  lemma PathElectsItself(w: Writer)
    requires IsWriter(w)
    ensures PrimaryKey(Joined(w.path)) == Joined(w.path)
  {
    ElectsItself(Sentence(w));
  }

  lemma SlotElectsFirst(client: Client, p: Put)
    requires Sendable(client, p)
    ensures var w := p.slot.writer; ElectsFirst(client, CallOf(p), Joined(w.path), Joined(w.source))
  {
    var w := p.slot.writer;
    PathElectsItself(w);
    hide SaveData, IsSlot, Storable, Joined, PrimaryKey, SeriesFor, FullPath, CallOf, PointOf;
    forall db: Db
      ensures SaveData(client, db, CallOf(p))
              == SaveData(client, db.(primaries := Elected(db.primaries, Joined(w.path), Joined(w.source))), CallOf(p))
    {
      SaveIsWrite(client, db, p);
      SaveIsWrite(client, db.(primaries := Elected(db.primaries, Joined(w.path), Joined(w.source))), p);
    }
  }

  // ---------------------------------------------------------------- what a save asks for

  function CoreOf(s: Sent): Sent {
    SentBy(s.writer, s.value, s.time)
  }

  lemma RichIsSent(client: Client, s: Sent)
    requires IsRich(client, s)
    ensures IsSent(client, CoreOf(s))
  {
    EntryIsSent(client, s.writer, s.value, s.time);
  }

  lemma SentenceCall(client: Client, s: Sent, d: Doc, millis: int)
    requires IsWriter(s.writer)
    ensures Call(EntryKey(s.writer) + [DOT] + SENTENCE, Joined(s.writer.source), millis, Of(d))
            == SideCall(SidePut(Sentence(s.writer), d, millis))
  {
    hide Joined, SidePath, EntryKey;
    SideKeyIs(Sentence(s.writer));
  }

  lemma MetaCalls(client: Client, w: Writer, ms: seq<Member>, millis: int)
    requires IsWriter(w) && AreMeta(client, ms)
    ensures EachUnder(EntryKey(w) + [DOT] + META + [DOT], ms, Joined(w.source), millis)
            == SideCalls(MetaOf(w, Some(Object(ms)), millis))
  {
    var calls := EachUnder(EntryKey(w) + [DOT] + META + [DOT], ms, Joined(w.source), millis);
    var xs := MetaOf(w, Some(Object(ms)), millis);
    forall i | 0 <= i < |ms|
      ensures calls[i] == SideCall(xs[i])
    {
      SideKeyIs(Meta(w, ms[i].key));
      hide Joined, SidePath, EntryKey, IsWriter;
    }
  }

  /** The calls for the value alone. */
  function ValueCalls(k: Text, value: Doc, source: Text, millis: int): seq<Call> {
    match value
    case Object(vs) => EachUnder(k + [DOT] + VALUE + [DOT], vs, source, millis)
    case _ => [Call(k + [DOT] + VALUE, source, millis, Of(value))]
  }

  lemma CallsSplit(client: Client, k: Text, ms: seq<Member>, value: Doc, source: Text, millis: int)
    requires MemberAt(ms, VALUE) == Some(value) && MemberAt(ms, VALUES) == None
    requires MemberAt(ms, META).Some? ==> MemberAt(ms, META).value.Object?
    ensures Calls(client, k, Object(ms), source, millis) ==
      ((match MemberAt(ms, SENTENCE)
        case None => []
        case Some(d) => [Call(k + [DOT] + SENTENCE, source, millis, Of(d))])
       + (match MemberAt(ms, META)
          case Some(Object(fields)) => EachUnder(k + [DOT] + META + [DOT], fields, source, millis)
          case _ => [])
       + ValueCalls(k, value, source, millis), Ok(()))
  {
    hide MemberAt, EachUnder;
    var sentences := match MemberAt(ms, SENTENCE)
      case None => []
      case Some(d) => [Call(k + [DOT] + SENTENCE, source, millis, Of(d))];
    var metas := match MemberAt(ms, META)
      case Some(Object(fields)) => EachUnder(k + [DOT] + META + [DOT], fields, source, millis)
      case _ => [];
    assert sentences + metas + [] == sentences + metas;
  }

  lemma CoreMembers(w: Writer, v: Doc, time: Text)
    ensures var ms := SentBy(w, v, time).doc.members;
            && MemberAt(ms, VALUE) == Some(v) && MemberAt(ms, SENTENCE) == None && MemberAt(ms, META) == None
            && MemberAt(ms, VALUES) == None
  {
    hide Joined;
    var ms := SentBy(w, v, time).doc.members;
    var m1, m2 := [ms[1], ms[2]], [ms[2]];
    assert ms[1..] == m1 && m1[1..] == m2 && m2[1..] == [];
    assert |VALUES| == 6 && |META| == 4 && |SENTENCE| == 8 && |VALUE| == 5 && |SOURCE_REF| == 7 && |TIMESTAMP| == 9;
    assert forall name :: MemberAt(m2, name) == if name == TIMESTAMP then Some(ms[2].doc) else None;
    assert forall name :: MemberAt(m1, name) == if name == SOURCE_REF then Some(ms[1].doc) else MemberAt(m2, name);
  }

  /** An entry asks for its sides, and then for its value as it would without them. */
  lemma RichCalls(client: Client, s: Sent, now: int)
    requires IsRich(client, s)
    ensures IsSent(client, CoreOf(s))
    ensures var k := EntryKey(s.writer);
            && !IsAttribute(k) && SourceFor(k, s.doc) == Ok(Joined(s.writer.source))
            && TimeOf(client, s.doc, now) == Ok(client.millis(s.time).value)
            && Calls(client, k, s.doc, Joined(s.writer.source), client.millis(s.time).value)
               == (SideCalls(SidesOf(client, OfEntry(s))) + CallsOf(PutsOf(client, CoreOf(s))), Ok(()))
  {
    hide Joined, Blank, Contains, Storable, MemberAt, EachUnder, Calls, IsStorable, EntryKey, SidePath;
    var k, source, millis := EntryKey(s.writer), Joined(s.writer.source), client.millis(s.time).value;
    RichIsSent(client, s);
    EntryCalls(client, CoreOf(s), now);
    CoreMembers(s.writer, s.value, s.time);
    CallsSplit(client, k, CoreOf(s).doc.members, s.value, source, millis);
    assert [] + [] + ValueCalls(k, s.value, source, millis) == ValueCalls(k, s.value, source, millis);
    assert CallsOf(PutsOf(client, CoreOf(s))) == ValueCalls(k, s.value, source, millis);
    CallsSplit(client, k, s.doc.members, s.value, source, millis);
    RichSides(client, s);
  }

  lemma RichSides(client: Client, s: Sent)
    requires IsRich(client, s)
    ensures var ms, k, source, millis := s.doc.members, EntryKey(s.writer), Joined(s.writer.source), client.millis(s.time).value;
            SideCalls(SidesOf(client, OfEntry(s))) ==
            (match MemberAt(ms, SENTENCE)
             case None => []
             case Some(d) => [Call(k + [DOT] + SENTENCE, source, millis, Of(d))])
            + (match MemberAt(ms, META)
               case Some(Object(fields)) => EachUnder(k + [DOT] + META + [DOT], fields, source, millis)
               case _ => [])
  {
    var ms, millis := s.doc.members, client.millis(s.time).value;
    var meta := MemberAt(ms, META);
    hide MemberAt, EachUnder, IsStorable, EntryKey, SidePath, Joined, IsWriter, IsValue;
    if meta.Some? {
      MetaCalls(client, s.writer, meta.value.members, millis);
      assert meta == Some(Object(meta.value.members));
    }
    var sentence := MemberAt(ms, SENTENCE);
    if sentence.Some? {
      SentenceCall(client, s, sentence.value, millis);
      var first := SidePut(Sentence(s.writer), sentence.value, millis);
      SideCallsBoth([first], MetaOf(s.writer, meta, millis));
      assert SideCalls([first]) == [SideCall(first)];
    } else {
      SideCallsBoth([], MetaOf(s.writer, meta, millis));
      assert SideCalls([]) == [];
    }
  }

  lemma SideCallsBoth(a: seq<SidePut>, b: seq<SidePut>)
    ensures SideCalls(a + b) == SideCalls(a) + SideCalls(b)
  {
    hide SideCall;
  }

  /** A plain entry asks for itself. */
  lemma PlainSaved(client: Client, db: Db, path: seq<Text>, doc: Doc, now: int)
    requires IsPlainSave(client, path, doc)
    ensures EntrySaved(client, db, Joined(path), doc, now) == SaveData(client, db, SideCall(SidePut(Plain(path), doc, now)))
  {
    PlainKeyRead(path);
    BlankNothing();
    var call := SideCall(SidePut(Plain(path), doc, now));
    hide Joined, Blank, IndexOf, SaveData, IsStorable, EndsWith;
    assert SubstringAfter(Joined(path), DOT_VALUES_DOT) == [];
    assert [call][..0] == [] && [call][0] == call;
    assert SaveAll(client, db, []) == (db, Ok(()));
    assert SaveAll(client, db, [call]) == SaveData(client, db, call);
  }

  // ---------------------------------------------------------------- who was first

  lemma {:induction false} FirstOfBoth(puts: seq<Put>, more: seq<Put>, path: seq<Text>)
    ensures First(puts + more, path) == if First(puts, path).Some? then First(puts, path) else First(more, path)
    decreases |more|
  {
    if more == [] {
      assert puts + more == puts;
    } else {
      var n := |more| - 1;
      var all := puts + more;
      assert all[..|all| - 1] == puts + more[..n] && all[|all| - 1] == more[n];
      FirstOfBoth(puts, more[..n], path);
    }
  }

  lemma {:induction false} FirstOfOne(more: seq<Put>, w: Writer)
    requires more != [] && forall i :: 0 <= i < |more| ==> more[i].slot.writer == w
    ensures First(more, w.path) == Some(w.source)
  {
    if |more| > 1 {
      FirstOfOne(more[..|more| - 1], w);
    } else {
      assert more[..0] == [];
    }
  }

  lemma PutsOfWriter(client: Client, s: Sent)
    requires IsSent(client, s)
    ensures var more := PutsOf(client, s);
            && (forall i :: 0 <= i < |more| ==> more[i].slot.writer == s.writer)
            && (s.value != Object([]) <==> more != [])
  {
  }

  /** The election before the value of an entry is saved makes its source primary exactly if it is the first of the path then. */
  lemma FlagIsFirst(client: Client, puts: seq<Put>, more: seq<Put>, db: Db, w: Writer)
    requires AllSendable(client, puts) && Reflects(client, puts, db) && IsWriter(w)
    requires more != [] && forall i :: 0 <= i < |more| ==> more[i].slot.writer == w
    ensures var e := Elected(db.primaries, Joined(w.path), Joined(w.source));
            Joined(w.path) in e && (e[Joined(w.path)] == Joined(w.source) <==> IsFirst(puts + more, w))
    ensures First(puts + more, w.path).Some?
  {
    FirstOfBoth(puts, more, w.path);
    FirstOfOne(more, w);
    PathElectsItself(w);
    assert Votes(puts, db.primaries, w.path);
    if First(puts, w.path).Some? {
      ElectedIsFirst(client, puts, db.primaries, w);
    }
    hide Joined, PrimaryKey, IsWriter, Keeps, AllVoted;
  }

  /** The path of every side of a writer has a first source. */
  ghost predicate SidesVoted(puts: seq<Put>, xs: seq<SidePut>) {
    forall i :: 0 <= i < |xs| && !xs[i].side.Plain? ==> First(puts, xs[i].side.writer.path).Some?
  }

  lemma {:induction false} WrittenSide(client: Client, xs: seq<SidePut>, x: Side)
    requires AllSides(client, xs)
    ensures LatestSide(client, xs, x).Some? <==> exists i :: 0 <= i < |xs| && xs[i].side == x
  {
    hide IsSide, IsStorable, Later, PointFor;
    if xs != [] {
      var n := |xs| - 1;
      WrittenSide(client, xs[..n], x);
      if i :| 0 <= i < |xs| && xs[i].side == x {
        assert i < n ==> xs[..n][i] == xs[i];
      }
      if i :| 0 <= i < n && xs[..n][i].side == x {
        assert xs[i].side == x;
      }
    }
  }

  /** Who was first stays so. */
  lemma FlagsStay(client: Client, puts: seq<Put>, more: seq<Put>, xs: seq<SidePut>, points: Points)
    requires AllSides(client, xs) && SidesKept(client, puts, xs, points) && SidesVoted(puts, xs)
    ensures SidesKept(client, puts + more, xs, points) && SidesVoted(puts + more, xs)
  {
    hide IsSide, IsStorable, LatestSide, SideSeries;
    forall x | LatestSide(client, xs, x).Some?
      ensures SideFlag(puts + more, x) == SideFlag(puts, x)
    {
      WrittenSide(client, xs, x);
      if !x.Plain? {
        FirstOfBoth(puts, more, x.writer.path);
      }
    }
    forall i | 0 <= i < |xs| && !xs[i].side.Plain?
      ensures First(puts + more, xs[i].side.writer.path).Some?
    {
      FirstOfBoth(puts, more, xs[i].side.writer.path);
    }
  }

  // ---------------------------------------------------------------- a run

  /** An entry that saves something: an object without fields is nothing to save. */
  predicate SavesValue(x: Saving) {
    x.OfEntry? && x.sent.value != Object([])
  }

  /** No plain entry has the path of a writer. */
  predicate PathsApart(run: seq<Saving>) {
    forall i, j :: 0 <= i < |run| && 0 <= j < |run| && run[i].OfPlain? && SavesValue(run[j]) ==> run[i].path != run[j].sent.writer.path
  }

  lemma {:induction false} SaveAllBoth(client: Client, db: Db, a: seq<Call>, b: seq<Call>)
    requires SaveAll(client, db, a).1.Ok?
    ensures SaveAll(client, db, a + b) == SaveAll(client, SaveAll(client, db, a).0, b)
    decreases |b|
  {
    hide SaveData;
    assert SaveAll(client, db, a).1.value == ();
    if b == [] {
      assert a + b == a;
    } else {
      var n := |b| - 1;
      var all := a + b;
      assert all[..|all| - 1] == a + b[..n] && all[|all| - 1] == b[n];
      SaveAllBoth(client, db, a, b[..n]);
    }
  }

  /** An entry with what is beside it: the value goes to its store as if it were alone. */
  lemma EntryBeside(client: Client, puts: seq<Put>, core: Db, xs: seq<SidePut>, b: Points, v: map<Text, Text>, s: Sent, now: int)
    returns (after: Points)
    requires AllSendable(client, puts) && Reflects(client, puts, core) && IsRich(client, s)
    requires AllSides(client, xs) && SidesKept(client, puts, xs, b) && SidesVoted(puts, xs)
    requires s.value != Object([]) ==> Joined(s.writer.path) !in v
    ensures IsSent(client, CoreOf(s))
    ensures var later, ys := puts + PutsOf(client, CoreOf(s)), xs + SidesOf(client, OfEntry(s));
            && AllSides(client, ys) && SidesKept(client, later, ys, after) && SidesVoted(later, ys)
            && var core' := EntrySaved(client, core, EntryKey(s.writer), CoreOf(s).doc, now).0;
               EntrySaved(client, Db(core.points + b, core.primaries + v), EntryKey(s.writer), s.doc, now).0
               == Db(core'.points + after, core'.primaries + v)
  {
    RichCalls(client, s, now);
    EntryCalls(client, CoreOf(s), now);
    var more, sides := PutsOf(client, CoreOf(s)), SidesOf(client, OfEntry(s));
    PutsOfWriter(client, CoreOf(s));
    FlagsStay(client, puts, more, xs, b);
    hide IsSent, PutsOf, Calls, SourceFor, TimeOf, Reflects, Keeps, AllVoted, SaveData, SidesKept, Joined, IsAttribute, EntryKey,
      AllSendable, LatestSide, IsSide, IsStorable;
    after := SidesThenSlots(client, puts, core, xs, b, v, s, more, sides);
  }

  lemma SidesThenSlots(client: Client, puts: seq<Put>, core: Db, xs: seq<SidePut>, b: Points, v: map<Text, Text>, s: Sent,
      more: seq<Put>, sides: seq<SidePut>) returns (after: Points)
    requires AllSendable(client, puts) && Reflects(client, puts, core) && IsRich(client, s)
    requires IsSent(client, CoreOf(s)) && more == PutsOf(client, CoreOf(s)) && sides == SidesOf(client, OfEntry(s))
    requires AllSides(client, xs) && SidesKept(client, puts + more, xs, b) && SidesVoted(puts + more, xs)
    requires s.value != Object([]) ==> Joined(s.writer.path) !in v
    ensures AllSides(client, xs + sides) && SidesKept(client, puts + more, xs + sides, after) && SidesVoted(puts + more, xs + sides)
    ensures var (core', end) := SaveAll(client, core, CallsOf(more));
            SaveAll(client, Db(core.points + b, core.primaries + v), SideCalls(sides) + CallsOf(more))
            == (Db(core'.points + after, core'.primaries + v), end)
  {
    var later, w := puts + more, s.writer;
    PutsOfWriter(client, CoreOf(s));
    SidesOfWriter(client, s);
    PathElectsItself(w);
    hide IsSent, PutsOf, SaveData, Joined, LatestSide, IsSide, IsStorable, IsWriter, AllVoted, Keeps, SidesKept, PrimaryKey, CallOf;
    var full := Db(core.points + b, core.primaries + v);
    if sides == [] {
      after := b;
      assert xs + sides == xs && SideCalls(sides) + CallsOf(more) == CallsOf(more);
      SlotsBeside(client, puts, later, core, xs, b, v, more);
    } else {
      FlagIsFirst(client, puts, more, core, w);
      var path, source := Joined(w.path), Joined(w.source);
      var e := Elected(core.primaries, path, source);
      ElectedBeside(core.primaries, v, path, source);
      after := SidesBeside(client, puts, later, w, Db(core.points, e), xs, b, v, sides);
      ElectThenSides(client, full, sides, more, w);
      SaveAllBoth(client, Db(core.points + b, e + v), SideCalls(sides), CallsOf(more));
      ElectThenSlots(client, Db(core.points + after, core.primaries + v), more, w);
      SlotsBeside(client, puts, later, core, xs + sides, after, v, more);
      VotedBoth(later, xs, sides, w);
    }
  }

  lemma VotedBoth(later: seq<Put>, xs: seq<SidePut>, sides: seq<SidePut>, w: Writer)
    requires SidesVoted(later, xs) && First(later, w.path).Some?
    requires forall i :: 0 <= i < |sides| ==> !sides[i].side.Plain? && sides[i].side.writer == w
    ensures SidesVoted(later, xs + sides)
  {
  }

  lemma SidesOfWriter(client: Client, s: Sent)
    requires IsRich(client, s)
    ensures var sides := SidesOf(client, OfEntry(s));
            && (forall i :: 0 <= i < |sides| ==> !sides[i].side.Plain? && sides[i].side.writer == s.writer)
            && (sides != [] ==> s.value != Object([]))
  {
    hide IsStorable, MemberAt, IsWriter, IsValue, Joined;
  }

  lemma ElectThenSides(client: Client, db: Db, sides: seq<SidePut>, more: seq<Put>, w: Writer)
    requires AllSides(client, sides) && sides != []
    requires forall i :: 0 <= i < |sides| ==> !sides[i].side.Plain? && sides[i].side.writer == w
    ensures var calls := SideCalls(sides) + CallsOf(more);
            SaveAll(client, db, calls)
            == SaveAll(client, db.(primaries := Elected(db.primaries, Joined(w.path), Joined(w.source))), calls)
  {
    hide IsStorable, IsSide, SaveData, Joined, ElectsFirst, SideCall, Elected, CallOf;
    SideElectsFirst(client, sides[0]);
    assert Electing(sides[0].side) == w.path && SideSource(sides[0].side) == Joined(w.source);
    ElectedFirst(client, db, SideCalls(sides) + CallsOf(more), Joined(w.path), Joined(w.source));
  }

  lemma ElectThenSlots(client: Client, db: Db, more: seq<Put>, w: Writer)
    requires AllSendable(client, more) && more != [] && more[0].slot.writer == w
    ensures SaveAll(client, db, CallsOf(more))
            == SaveAll(client, db.(primaries := Elected(db.primaries, Joined(w.path), Joined(w.source))), CallsOf(more))
  {
    hide SaveData, Joined, ElectsFirst, CallOf, Elected, Sendable;
    SlotElectsFirst(client, more[0]);
    ElectedFirst(client, db, CallsOf(more), Joined(w.path), Joined(w.source));
  }

  // ---------------------------------------------------------------- the store after a run

  lemma {:induction false} VotesOfSlots(client: Client, puts: seq<Put>, core: Db, more: seq<Put>)
    requires AllSendable(client, puts) && AllSendable(client, more) && Reflects(client, puts, core)
    ensures forall k :: k in SaveAll(client, core, CallsOf(more)).0.primaries ==>
              k in core.primaries || exists i :: 0 <= i < |more| && k == Joined(more[i].slot.writer.path)
    decreases |more|
  {
    hide Sendable, Reflects, SaveData, CallOf, Joined, PrimaryKey, FullPath, SeriesFor, PointOf;
    if more != [] {
      var n := |more| - 1;
      VotesOfSlots(client, puts, core, more[..n]);
      WritesHold(client, puts, more[..n], core);
      assert CallsOf(more)[..n] == CallsOf(more[..n]);
      SaveIsWrite(client, SaveAll(client, core, CallsOf(more[..n])).0, more[n]);
      forall k | k in SaveAll(client, core, CallsOf(more)).0.primaries && k !in core.primaries
        ensures exists i :: 0 <= i < |more| && k == Joined(more[i].slot.writer.path)
      {
        if i :| 0 <= i < n && k == Joined(more[..n][i].slot.writer.path) {
          assert k == Joined(more[i].slot.writer.path);
        }
      }
    }
  }

  /** Only paths of writers have a primary source. */
  lemma {:induction false} CoreVotes(client: Client, run: seq<Sent>, now: int)
    requires AllSent(client, run)
    ensures forall k :: k in Run(client, run, now).primaries ==>
              exists i :: 0 <= i < |run| && run[i].value != Object([]) && k == Joined(run[i].writer.path)
  {
    hide IsSent, PutsOf, EntryKey, Reflects, AllSendable, Calls, CallsOf, SourceFor, TimeOf, IsAttribute, Joined, SaveAll;
    if run != [] {
      var n := |run| - 1;
      CoreVotes(client, run[..n], now);
      RunHolds(client, run[..n], now);
      EntryCalls(client, run[n], now);
      VotesOfSlots(client, AllPuts(client, run[..n]), Run(client, run[..n], now), PutsOf(client, run[n]));
      PutsOfWriter(client, run[n]);
      forall k | k in Run(client, run, now).primaries
        ensures exists i :: 0 <= i < |run| && run[i].value != Object([]) && k == Joined(run[i].writer.path)
      {
        if k in Run(client, run[..n], now).primaries {
          var i :| 0 <= i < n && run[..n][i].value != Object([]) && k == Joined(run[..n][i].writer.path);
          assert run[i].value != Object([]) && k == Joined(run[i].writer.path);
        } else {
          assert k == Joined(run[n].writer.path);
        }
      }
    }
  }

  lemma {:induction false} PlainVotesOf(client: Client, xs: seq<SidePut>, k: Text)
    requires AllSides(client, xs) && k in PlainVotes(xs)
    ensures PlainVotes(xs)[k] == SELF && exists i :: 0 <= i < |xs| && xs[i].side.Plain? && k == Joined(xs[i].side.path)
  {
    hide IsSide, IsStorable, Joined;
    var n := |xs| - 1;
    if xs[n].side.Plain? && k == Joined(xs[n].side.path) {
    } else {
      PlainVotesOf(client, xs[..n], k);
      var i :| 0 <= i < n && xs[..n][i].side.Plain? && k == Joined(xs[..n][i].side.path);
      assert xs[i].side.Plain? && k == Joined(xs[i].side.path);
    }
  }

  lemma {:induction false} PlainOnly(xs: seq<SidePut>, more: seq<SidePut>)
    requires forall i :: 0 <= i < |more| ==> !more[i].side.Plain?
    ensures PlainVotes(xs + more) == PlainVotes(xs)
    decreases |more|
  {
    hide Joined;
    if more == [] {
      assert xs + more == xs;
    } else {
      var n := |more| - 1;
      var all := xs + more;
      assert all[..|all| - 1] == xs + more[..n] && all[|all| - 1] == more[n];
      PlainOnly(xs, more[..n]);
    }
  }

  lemma {:induction false} CoreIsSent(client: Client, run: seq<Saving>)
    requires AllSavings(client, run)
    ensures AllSent(client, Core(run))
  {
    hide IsRich, IsSent, IsPlainSave;
    if run != [] {
      var n := |run| - 1;
      CoreIsSent(client, run[..n]);
      SavingIs(client, run[n]);
      if run[n].OfEntry? {
        RichIsSent(client, run[n].sent);
      }
    }
  }

  /** The entries of a run by their writers, and the plain ones by their paths. */
  lemma {:induction false} EntryIsOfRun(run: seq<Saving>, i: nat)
    requires i < |Core(run)|
    ensures exists j :: 0 <= j < |run| && run[j].OfEntry? && run[j].sent.writer == Core(run)[i].writer
              && run[j].sent.value == Core(run)[i].value
  {
    var n := |run| - 1;
    var before := Core(run[..n]);
    if i < |before| {
      EntryIsOfRun(run[..n], i);
      var j :| 0 <= j < n && run[..n][j].OfEntry? && run[..n][j].sent.writer == before[i].writer
               && run[..n][j].sent.value == before[i].value;
      assert run[j].OfEntry? && run[j].sent.writer == Core(run)[i].writer && run[j].sent.value == Core(run)[i].value;
    } else {
      assert run[n].OfEntry? && run[n].sent.writer == Core(run)[i].writer && run[n].sent.value == Core(run)[i].value;
    }
  }

  lemma {:induction false} PlainIsOfRun(client: Client, run: seq<Saving>, i: nat)
    requires AllSavings(client, run) && i < |RunSides(client, run)| && RunSides(client, run)[i].side.Plain?
    ensures exists j :: 0 <= j < |run| && run[j].OfPlain? && run[j].path == RunSides(client, run)[i].side.path
  {
    hide IsRich, IsPlainSave, IsSide, IsStorable;
    var n := |run| - 1;
    var before := RunSides(client, run[..n]);
    if i < |before| {
      PlainIsOfRun(client, run[..n], i);
      var j :| 0 <= j < n && run[..n][j].OfPlain? && run[..n][j].path == before[i].side.path;
      assert run[j].OfPlain? && run[j].path == RunSides(client, run)[i].side.path;
    } else {
      var k := i - |before|;
      assert RunSides(client, run)[i] == SidesOf(client, run[n])[k];
      SavingIs(client, run[n]);
      if run[n].OfEntry? {
        SidesOfWriter(client, run[n].sent);
      }
      assert run[n].OfPlain? && run[n].path == RunSides(client, run)[i].side.path;
    }
  }

  /** The path of a writer is no key of a plain entry, and the other way round. */
  lemma NoneInCommon(client: Client, run: seq<Saving>, i: nat, j: nat)
    requires AllSavings(client, run) && PathsApart(run) && i < |run| && j < |run| && run[i].OfPlain? && SavesValue(run[j])
    ensures Joined(run[i].path) != Joined(run[j].sent.writer.path)
  {
    hide Joined, IsStorable, IsValue;
    SavingIs(client, run[i]);
    SavingIs(client, run[j]);
    SourcesDiffer(run[i].path, run[j].sent.writer.path);
  }

  lemma KeysApart(client: Client, run: seq<Saving>, part: seq<Saving>, now: int)
    requires AllSavings(client, run) && PathsApart(run) && part <= run
    ensures AllSavings(client, part) && AllSent(client, Core(part)) && AllSides(client, RunSides(client, part))
    ensures forall i :: 0 <= i < |run| && SavesValue(run[i]) ==> Joined(run[i].sent.writer.path) !in PlainVotes(RunSides(client, part))
    ensures forall i :: 0 <= i < |run| && run[i].OfPlain? ==> Joined(run[i].path) !in Run(client, Core(part), now).primaries
  {
    hide IsSaving, Joined, IsSide, IsStorable, IsSent, Run;
    assert forall i :: 0 <= i < |part| ==> part[i] == run[i];
    CoreIsSent(client, part);
    CoreVotes(client, Core(part), now);
    var xs := RunSides(client, part);
    forall i | 0 <= i < |run| && SavesValue(run[i])
      ensures Joined(run[i].sent.writer.path) !in PlainVotes(xs)
    {
      var k := Joined(run[i].sent.writer.path);
      if k in PlainVotes(xs) {
        PlainVotesOf(client, xs, k);
        var a :| 0 <= a < |xs| && xs[a].side.Plain? && k == Joined(xs[a].side.path);
        PlainIsOfRun(client, part, a);
        var j :| 0 <= j < |part| && part[j].OfPlain? && part[j].path == xs[a].side.path;
        NoneInCommon(client, run, j, i);
      }
    }
    forall i | 0 <= i < |run| && run[i].OfPlain?
      ensures Joined(run[i].path) !in Run(client, Core(part), now).primaries
    {
      var k := Joined(run[i].path);
      if k in Run(client, Core(part), now).primaries {
        var a :| 0 <= a < |Core(part)| && Core(part)[a].value != Object([]) && k == Joined(Core(part)[a].writer.path);
        EntryIsOfRun(part, a);
        var j :| 0 <= j < |part| && part[j].OfEntry? && part[j].sent.writer == Core(part)[a].writer
                 && part[j].sent.value == Core(part)[a].value;
        NoneInCommon(client, run, i, j);
      }
    }
  }

  /** A plain entry by the side of a store. */
  lemma PlainBeside(client: Client, puts: seq<Put>, core: Db, xs: seq<SidePut>, b: Points, path: seq<Text>, doc: Doc, now: int)
    returns (after: Points)
    requires AllSendable(client, puts) && Reflects(client, puts, core) && IsPlainSave(client, path, doc)
    requires AllSides(client, xs) && SidesKept(client, puts, xs, b)
    requires Joined(path) !in core.primaries
    ensures var ys := xs + [SidePut(Plain(path), doc, now)];
            && AllSides(client, ys) && SidesKept(client, puts, ys, after)
            && EntrySaved(client, Db(core.points + b, core.primaries + PlainVotes(xs)), Joined(path), doc, now).0
               == Db(core.points + after, core.primaries + PlainVotes(ys))
  {
    hide SaveData, Joined, LatestSide, AllVoted, Keeps, SidesKept, PrimaryKey, EntrySaved, SideSeries, Elected, PlainVotes,
      IsPlainPath, SidePath, AllSendable, IsStorable, PointFor, IsSaved;
    var x := SidePut(Plain(path), doc, now);
    var ys := xs + [x];
    var full := Db(core.points + b, core.primaries + PlainVotes(xs));
    PlainSaved(client, full, path, doc, now);
    PlainVotesPush(xs, x);
    SideKept(client, puts, xs, x, b);
    var r := SideSeries(x.side, true);
    after := Write(b, r, PointFor(client, Of(doc), now));
    SideIsWritten(client, full, x.side, Of(doc), now);
    PlainElected(client, core.primaries, xs, path);
    PointsApart(client, puts, xs, core.points, b, puts);
    SlotsOnly(client, puts, core.points, x.side, true);
    WriteBeside(core.points, b, r, PointFor(client, Of(doc), now));
  }

  lemma PlainVotesPush(xs: seq<SidePut>, x: SidePut)
    requires x.side.Plain?
    ensures PlainVotes(xs + [x]) == PlainVotes(xs)[Joined(x.side.path) := SELF]
  {
    assert (xs + [x])[..|xs|] == xs;
  }

  lemma SetBeside(e: map<Text, Text>, v: map<Text, Text>, k: Text, x: Text)
    requires k !in e
    ensures (e + v)[k := x] == e + v[k := x] && e + v[k := x] == (e + v)[k := x] && (k in v ==> (e + v)[k] == v[k])
  {
  }

  lemma ElectedBy(e: map<Text, Text>, key: Text, source: Text)
    requires PrimaryKey(key) == key
    ensures Elected(e, key, source) == if key in e then e else e[key := source]
  {
    hide PrimaryKey;
  }

  lemma PlainElected(client: Client, e: map<Text, Text>, xs: seq<SidePut>, path: seq<Text>)
    requires AllSides(client, xs) && IsPlainPath(path) && Joined(path) !in e
    ensures var after := Elected(e + PlainVotes(xs), Joined(path), SELF);
            after == e + PlainVotes(xs)[Joined(path) := SELF] && Joined(path) in after && after[Joined(path)] == SELF
  {
    ElectsItself(Plain(path));
    var k, v := Joined(path), PlainVotes(xs);
    if k in v {
      PlainVotesOf(client, xs, k);
      assert v[k := SELF] == v;
    }
    hide Joined, PrimaryKey, IsStorable, IsSide, Elected, PlainVotes, IsPlainPath;
    ElectedBy(e + v, k, SELF);
    SetBeside(e, v, k, SELF);
  }

  /**
   * After any run of saves of every kind the store is that of the values alone, and beside it exactly the latest points of
   * the sides.
   */
  lemma {:induction false} MixedHolds(client: Client, run: seq<Saving>, part: seq<Saving>, now: int) returns (b: Points)
    requires AllSavings(client, run) && PathsApart(run) && part <= run
    ensures AllSavings(client, part) && AllSent(client, Core(part))
    ensures var puts, xs, core := AllPuts(client, Core(part)), RunSides(client, part), Run(client, Core(part), now);
            && SidesKept(client, puts, xs, b) && SidesVoted(puts, xs)
            && MixedRun(client, part, now) == Db(core.points + b, core.primaries + PlainVotes(xs))
    decreases |part|
  {
    KeysApart(client, run, part, now);
    hide IsSaving, IsSent, IsRich, IsPlainSave, IsSide, IsStorable, LatestSide, Joined, EntrySaved, SidesKept, PutsOf, EntryKey,
      Reflects, AllSendable;
    if part == [] {
      b := map[];
      NothingBeside(client);
    } else {
      var n := |part| - 1;
      var before := part[..n];
      b := MixedHolds(client, run, before, now);
      KeysApart(client, run, before, now);
      assert part[n] == run[n] && IsSaving(client, run[n]);
      RunHolds(client, Core(before), now);
      var puts, xs, core := AllPuts(client, Core(before)), RunSides(client, before), Run(client, Core(before), now);
      match part[n]
      case OfEntry(s) =>
        SavingIs(client, part[n]);
        b := EntryBeside(client, puts, core, xs, b, PlainVotes(xs), s, now);
        CorePush(client, before, s, now);
        SidesOfWriter(client, s);
        PlainOnly(xs, SidesOf(client, part[n]));
      case OfPlain(path, doc, time) =>
        SavingIs(client, part[n]);
        b := PlainBeside(client, puts, core, xs, b, path, doc, time);
        VotedPlain(puts, xs, SidePut(Plain(path), doc, time));
    }
  }

  lemma SavingIs(client: Client, x: Saving)
    requires IsSaving(client, x)
    ensures x.OfEntry? ==> IsRich(client, x.sent)
    ensures x.OfPlain? ==> IsPlainSave(client, x.path, x.doc)
  {
  }

  lemma VotedPlain(puts: seq<Put>, xs: seq<SidePut>, x: SidePut)
    requires SidesVoted(puts, xs) && x.side.Plain?
    ensures SidesVoted(puts, xs + [x])
  {
  }

  lemma NothingBeside(client: Client)
    ensures SidesKept(client, [], [], map[]) && SidesVoted([], [])
  {
  }

  lemma CorePush(client: Client, before: seq<Saving>, s: Sent, now: int)
    requires AllSent(client, Core(before)) && IsSent(client, CoreOf(s))
    ensures var core := Core(before) + [CoreOf(s)];
            && AllSent(client, core)
            && AllPuts(client, core) == AllPuts(client, Core(before)) + PutsOf(client, CoreOf(s))
            && Run(client, core, now) == EntrySaved(client, Run(client, Core(before), now), EntryKey(s.writer), CoreOf(s).doc, now).0
  {
    hide IsSent, EntrySaved, EntryKey, PutsOf;
    var core := Core(before) + [CoreOf(s)];
    assert core[..|core| - 1] == Core(before) && core[|core| - 1] == CoreOf(s);
  }
}
