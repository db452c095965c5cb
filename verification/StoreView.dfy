/** What the store holds after a run of saves: the latest point of every slot, and who was first. */
module StoreView {
  import opened Units
  import opened JsonValues
  import opened Numbers
  import opened Printer
  import opened SignalKKeys
  import opened DeltaFormat
  import opened Store
  import opened StoreRuns

  // ---------------------------------------------------------------- writes

  /** One value that is written: to a slot, at a time. */
  datatype Put = Put(slot: Slot, value: Json, millis: int)

  /** The values that come back as they went in. */
  predicate Storable(client: Client, v: Json) {
    && IsScalar(v)
    && (v.Str? ==> v.s != TRUE && v.s != FALSE && !LooksLikeArray(v.s))
    && (v.Int? ==> IsLong(v.n) && client.asDouble(v.n) == v.n)
  }

  predicate Sendable(client: Client, p: Put) {
    IsSlot(p.slot) && Storable(client, p.value)
  }

  function CallOf(p: Put): Call {
    Call(EntryKey(p.slot.writer) + [DOT] + VALUE + FieldText(p.slot), Joined(p.slot.writer.source), p.millis,
      Of(Scalar(p.value)))
  }

  // ---------------------------------------------------------------- the view of the writes

  /** The source that wrote a path first. */
  function First(puts: seq<Put>, path: seq<Text>): Option<seq<Text>> {
    if puts == [] then None
    else
      var n := |puts| - 1;
      var before := First(puts[..n], path);
      if before.Some? then before
      else if puts[n].slot.writer.path == path then Some(puts[n].slot.writer.source)
      else None
  }

  predicate IsFirst(puts: seq<Put>, w: Writer) {
    First(puts, w.path) == Some(w.source)
  }

  function PointOf(client: Client, p: Put): Point
    requires Sendable(client, p)
  {
    var (column, cell) := FieldOf(client, Of(Scalar(p.value))).value;
    Point(p.millis, map[column := cell])
  }

  /** The latest point of a slot. */
  function Latest(client: Client, puts: seq<Put>, s: Slot): Option<Point>
    requires AllSendable(client, puts)
  {
    if puts == [] then None
    else
      var n := |puts| - 1;
      var before := Latest(client, puts[..n], s);
      if puts[n].slot != s then before
      else Some(if before.Some? then Later(before.value, PointOf(client, puts[n])) else PointOf(client, puts[n]))
  }

  ghost predicate AllSendable(client: Client, puts: seq<Put>) {
    forall i :: 0 <= i < |puts| ==> Sendable(client, puts[i])
  }

  /** The slot was written. */
  ghost predicate WasPut(client: Client, puts: seq<Put>, s: Slot)
    requires AllSendable(client, puts)
  {
    IsSlot(s) && Latest(client, puts, s).Some?
  }

  /** The series of a slot is marked primary if its source was the first of its path. */
  function SeriesIn(puts: seq<Put>, s: Slot): Series
    requires IsSlot(s)
  {
    SeriesFor(s, IsFirst(puts, s.writer))
  }

  /** The database holds for every slot its latest point, marked primary for the first of its path, and nothing else. */
  ghost predicate Reflects(client: Client, puts: seq<Put>, db: Db)
    requires AllSendable(client, puts)
  {
    AllVoted(puts, db.primaries) && Keeps(client, puts, db.points)
  }

  ghost predicate AllVoted(puts: seq<Put>, primaries: map<Text, Text>) {
    forall w :: IsWriter(w) ==> Votes(puts, primaries, w.path)
  }

  ghost predicate Keeps(client: Client, puts: seq<Put>, points: Points)
    requires AllSendable(client, puts)
  {
    && (forall s :: WasPut(client, puts, s) ==>
          SeriesIn(puts, s) in points && points[SeriesIn(puts, s)] == Latest(client, puts, s).value)
    && forall r :: r in points ==> exists s :: WasPut(client, puts, s) && r == SeriesIn(puts, s)
  }

  predicate Votes(puts: seq<Put>, primaries: map<Text, Text>, path: seq<Text>) {
    var first := First(puts, path);
    if first.Some? then Joined(path) in primaries && primaries[Joined(path)] == Joined(first.value)
    else Joined(path) !in primaries
  }

  // ---------------------------------------------------------------- writing keeps the view

  /** Saving is one write, after the election. */
  lemma SaveIsWrite(client: Client, db: Db, p: Put)
    requires Sendable(client, p)
    ensures var w := p.slot.writer;
            var primaries := Elected(db.primaries, Joined(FullPath(p.slot)), Joined(w.source));
            && Joined(w.path) in primaries && PrimaryKey(Joined(FullPath(p.slot))) == Joined(w.path)
            && SaveData(client, db, CallOf(p)) ==
               (Db(Write(db.points, SeriesFor(p.slot, primaries[Joined(w.path)] == Joined(w.source)), PointOf(client, p)), primaries),
                Ok(()))
  {
    var w := p.slot.writer;
    KeyIsJoined(p.slot);
    KeyReadBack(p.slot);
    Vessels(w.path[0]);
    FullPathIsPath(p.slot);
    hide Joined, Segments, PrimaryKey, Contains, EndsWith, FieldOf, SeriesOf, FieldText;
    assert FullPath(p.slot)[0] == w.path[0];
    NotHeadings(p.slot);
    HasField(client, p.value);
  }

  lemma HasField(client: Client, v: Json)
    requires IsScalar(v)
    ensures FieldOf(client, Of(Scalar(v))).Some?
  {
  }

  lemma NotHeadings(s: Slot)
    requires IsSlot(s)
    ensures Joined(FullPath(s)) != SELF && Joined(FullPath(s)) != VERSION
  {
    KeyIsJoined(s);
    assert Joined(FullPath(s))[|Joined(s.writer.path)|] == DOT;
  }

  lemma FirstStays(puts: seq<Put>, path: seq<Text>)
    requires puts != [] && First(puts[..|puts| - 1], path).Some?
    ensures First(puts, path) == First(puts[..|puts| - 1], path)
  {
  }

  lemma {:induction false} WroteHasFirst(client: Client, puts: seq<Put>, s: Slot)
    requires AllSendable(client, puts) && Latest(client, puts, s).Some?
    ensures First(puts, s.writer.path).Some?
  {
    var n := |puts| - 1;
    if puts[n].slot != s {
      WroteHasFirst(client, puts[..n], s);
    }
  }

  lemma SourcesDiffer(a: seq<Text>, b: seq<Text>)
    requires IsPath(a) && IsPath(b)
    ensures Joined(a) == Joined(b) <==> a == b
  {
    if Joined(a) == Joined(b) {
      JoinedInjective(a, b);
    }
  }

  lemma VotesKept(puts: seq<Put>, primaries: map<Text, Text>, path: seq<Text>)
    requires puts != [] && IsSlot(puts[|puts| - 1].slot) && IsPath(path)
    requires Votes(puts[..|puts| - 1], primaries, path) && Votes(puts[..|puts| - 1], primaries, puts[|puts| - 1].slot.writer.path)
    ensures var s := puts[|puts| - 1].slot;
            Votes(puts, Elected(primaries, Joined(FullPath(s)), Joined(s.writer.source)), path)
  {
    var s := puts[|puts| - 1].slot;
    KeyReadBack(s);
    SourcesDiffer(path, s.writer.path);
    hide Joined, PrimaryKey, EndsWith, Contains, Segments;
  }

  lemma {:induction false} FirstIsPath(client: Client, puts: seq<Put>, path: seq<Text>)
    requires AllSendable(client, puts) && First(puts, path).Some?
    ensures IsPath(First(puts, path).value)
  {
    var n := |puts| - 1;
    if First(puts[..n], path).Some? {
      FirstIsPath(client, puts[..n], path);
    }
  }

  /** The election makes a writer primary exactly if its source is the first of its path. */
  lemma ElectedIsFirst(client: Client, puts: seq<Put>, primaries: map<Text, Text>, w: Writer)
    requires AllSendable(client, puts) && IsWriter(w)
    requires Votes(puts, primaries, w.path) && First(puts, w.path).Some?
    ensures Joined(w.path) in primaries && (primaries[Joined(w.path)] == Joined(w.source) <==> IsFirst(puts, w))
  {
    FirstIsPath(client, puts, w.path);
    SourcesDiffer(First(puts, w.path).value, w.source);
  }

  lemma NothingHeld(client: Client)
    ensures Reflects(client, [], Db(map[], map[]))
  {
  }

  /** One write more, and the database holds what it should. */
  lemma SaveHolds(client: Client, puts: seq<Put>, db: Db)
    requires puts != [] && AllSendable(client, puts) && Reflects(client, puts[..|puts| - 1], db)
    ensures var (after, end) := SaveData(client, db, CallOf(puts[|puts| - 1]));
            end == Ok(()) && Reflects(client, puts, after)
  {
    hide Sendable, SeriesFor, SaveData, IsWriter, Joined, Votes, FullPath, PrimaryKey, CallOf, PointOf, Keeps, Elected;
    var n := |puts| - 1;
    var p := puts[n];
    SaveIsWrite(client, db, p);
    var after := SaveData(client, db, CallOf(p)).0;
    LastIsSlot(client, puts);
    forall w | IsWriter(w)
      ensures Votes(puts, after.primaries, w.path)
    {
      VotesAfter(client, puts, db, w);
    }
    FirstAfter(puts);
    ElectedIsFirst(client, puts, after.primaries, p.slot.writer);
    PointsAfter(client, puts, db.points, after.points);
  }

  lemma LastIsSlot(client: Client, puts: seq<Put>)
    requires puts != [] && Sendable(client, puts[|puts| - 1])
    ensures IsSlot(puts[|puts| - 1].slot)
  {
  }

  lemma FirstAfter(puts: seq<Put>)
    requires puts != []
    ensures First(puts, puts[|puts| - 1].slot.writer.path).Some?
  {
  }

  lemma VotesAfter(client: Client, puts: seq<Put>, db: Db, w: Writer)
    requires puts != [] && AllSendable(client, puts) && Reflects(client, puts[..|puts| - 1], db)
    requires IsWriter(w)
    ensures var s := puts[|puts| - 1].slot;
            Votes(puts, Elected(db.primaries, Joined(FullPath(s)), Joined(s.writer.source)), w.path)
  {
    LastIsSlot(client, puts);
    PathOfWriter(w);
    assert IsWriter(puts[|puts| - 1].slot.writer);
    hide Sendable, IsWriter, Joined, Votes, FullPath, SeriesFor, Elected;
    VotesKept(puts, db.primaries, w.path);
  }

  lemma PathOfWriter(w: Writer)
    requires IsWriter(w)
    ensures IsPath(w.path) && IsPath(w.source)
  {
  }

  lemma PointsAfter(client: Client, puts: seq<Put>, before: Points, after: Points)
    requires puts != [] && AllSendable(client, puts)
    requires Keeps(client, puts[..|puts| - 1], before)
    requires var p := puts[|puts| - 1];
             IsSlot(p.slot) && after == Write(before, SeriesIn(puts, p.slot), PointOf(client, p))
    ensures Keeps(client, puts, after)
  {
    hide Sendable, SeriesFor, IsSlot, PointOf, Later;
    var n := |puts| - 1;
    var changed := SeriesIn(puts, puts[n].slot);
    forall s | WasPut(client, puts, s)
      ensures SeriesIn(puts, s) in after && after[SeriesIn(puts, s)] == Latest(client, puts, s).value
    {
      SlotAfter(client, puts, before, after, s);
    }
    forall r | r in after
      ensures exists s :: WasPut(client, puts, s) && r == SeriesIn(puts, s)
    {
      if r != changed {
        var s :| WasPut(client, puts[..n], s) && r == SeriesIn(puts[..n], s);
        WroteHasFirst(client, puts[..n], s);
        FirstStays(puts, s.writer.path);
        assert WasPut(client, puts, s);
      } else {
        assert WasPut(client, puts, puts[n].slot);
      }
    }
  }

  lemma SlotAfter(client: Client, puts: seq<Put>, before: Points, after: Points, s: Slot)
    requires puts != [] && AllSendable(client, puts)
    requires Keeps(client, puts[..|puts| - 1], before)
    requires var p := puts[|puts| - 1];
             IsSlot(p.slot) && after == Write(before, SeriesIn(puts, p.slot), PointOf(client, p))
    requires WasPut(client, puts, s)
    ensures SeriesIn(puts, s) in after && after[SeriesIn(puts, s)] == Latest(client, puts, s).value
  {
    hide Sendable, SeriesFor, IsSlot, PointOf, Later;
    var n := |puts| - 1;
    var u := puts[n].slot;
    if Latest(client, puts[..n], s).Some? {
      WroteHasFirst(client, puts[..n], s);
      FirstStays(puts, s.writer.path);
      assert WasPut(client, puts[..n], s);
    }
    if s != u {
      forall p, q | SeriesFor(s, p) == SeriesFor(u, q)
        ensures false
      {
        SeriesDiffer(s, u, p, q);
      }
    } else if Latest(client, puts[..n], s).None? {
      NotYet(client, puts, before, u);
    }
  }

  lemma NotYet(client: Client, puts: seq<Put>, before: Points, u: Slot)
    requires puts != [] && AllSendable(client, puts)
    requires Keeps(client, puts[..|puts| - 1], before) && IsSlot(u) && Latest(client, puts[..|puts| - 1], u).None?
    ensures forall p :: SeriesFor(u, p) !in before
  {
    hide Sendable, SeriesFor, IsSlot;
    var n := |puts| - 1;
    forall p
      ensures SeriesFor(u, p) !in before
    {
      if SeriesFor(u, p) in before {
        var s :| WasPut(client, puts[..n], s) && SeriesFor(u, p) == SeriesIn(puts[..n], s);
        SeriesDiffer(u, s, p, IsFirst(puts[..n], s.writer));
      }
    }
  }

  // ---------------------------------------------------------------- runs

  /** One save: the entry `doc` of a writer, with a value and a time. */
  datatype Sent = Sent(writer: Writer, value: Doc, time: Text, doc: Doc)

  /** A storable scalar, or an object of storable scalars. */
  predicate IsValue(client: Client, v: Doc) {
    match v
    case Scalar(json) => Storable(client, json)
    case Object(members) =>
      forall i :: 0 <= i < |members| ==>
        IsField(members[i].key) && members[i].doc.Scalar? && Storable(client, members[i].doc.json)
    case Array(_) => false
  }

  /** The entry has a value, its source and its time, in any order, and nothing that is saved besides. */
  predicate IsEntry(s: Sent) {
    && s.doc.Object?
    && MemberAt(s.doc.members, VALUE) == Some(s.value)
    && MemberAt(s.doc.members, SOURCE_REF) == Some(Scalar(Str(Joined(s.writer.source))))
    && MemberAt(s.doc.members, TIMESTAMP) == Some(Scalar(Str(s.time)))
    && MemberAt(s.doc.members, SENTENCE) == None && MemberAt(s.doc.members, META) == None
    && MemberAt(s.doc.members, VALUES) == None
  }

  predicate IsSent(client: Client, s: Sent) {
    IsWriter(s.writer) && IsEntry(s) && IsValue(client, s.value) && client.millis(s.time).Some?
  }

  ghost predicate AllSent(client: Client, run: seq<Sent>) {
    forall i :: 0 <= i < |run| ==> IsSent(client, run[i])
  }

  /** What a save writes: its value, or each field of it. */
  function PutsOf(client: Client, s: Sent): (puts: seq<Put>)
    requires IsSent(client, s)
    ensures AllSendable(client, puts)
  {
    var millis := client.millis(s.time).value;
    match s.value
    case Scalar(json) => [Put(Slot(s.writer, None), json, millis)]
    case Object(members) =>
      seq(|members|, i requires 0 <= i < |members| => Put(Slot(s.writer, Some(members[i].key)), members[i].doc.json, millis))
  }

  function AllPuts(client: Client, run: seq<Sent>): (puts: seq<Put>)
    requires AllSent(client, run)
    ensures AllSendable(client, puts)
  {
    if run == [] then []
    else
      var n := |run| - 1;
      AllPuts(client, run[..n]) + PutsOf(client, run[n])
  }

  function Run(client: Client, run: seq<Sent>, now: int): Db {
    if run == [] then Db(map[], map[])
    else
      var n := |run| - 1;
      EntrySaved(client, Run(client, run[..n], now), EntryKey(run[n].writer), run[n].doc, now).0
  }

  function CallsOf(puts: seq<Put>): (calls: seq<Call>)
    ensures |calls| == |puts| && forall i :: 0 <= i < |puts| ==> calls[i] == CallOf(puts[i])
  {
    seq(|puts|, i requires 0 <= i < |puts| => CallOf(puts[i]))
  }

  lemma EntryCalls(client: Client, s: Sent, now: int)
    requires IsSent(client, s)
    ensures var k := EntryKey(s.writer);
            && !IsAttribute(k) && SourceFor(k, s.doc) == Ok(Joined(s.writer.source))
            && TimeOf(client, s.doc, now) == Ok(client.millis(s.time).value)
            && Calls(client, k, s.doc, Joined(s.writer.source), client.millis(s.time).value)
               == (CallsOf(PutsOf(client, s)), Ok(()))
  {
    hide Joined, Blank, Contains, Storable;
    var k, source, millis := EntryKey(s.writer), Joined(s.writer.source), client.millis(s.time).value;
    if s.value.Scalar? {
      var call := CallOf(PutsOf(client, s)[0]);
      assert k + [DOT] + VALUE + [] == k + [DOT] + VALUE;
      assert [] + [] + [] + [call] == [call] == CallsOf(PutsOf(client, s));
    } else {
      var calls := EachUnder(k + [DOT] + VALUE + [DOT], s.value.members, source, millis);
      FieldCalls(client, s);
      assert [] + [] + [] + calls == calls;
    }
  }

  lemma FieldCalls(client: Client, s: Sent)
    requires IsSent(client, s) && s.value.Object?
    ensures EachUnder(EntryKey(s.writer) + [DOT] + VALUE + [DOT], s.value.members, Joined(s.writer.source), client.millis(s.time).value)
            == CallsOf(PutsOf(client, s))
  {
    hide Joined, EntryKey, Storable, IsWriter, IsEntry;
    var ms := s.value.members;
    var k := EntryKey(s.writer);
    var calls := EachUnder(k + [DOT] + VALUE + [DOT], ms, Joined(s.writer.source), client.millis(s.time).value);
    forall i | 0 <= i < |ms|
      ensures calls[i] == CallOf(PutsOf(client, s)[i])
    {
      Regrouped(k + [DOT] + VALUE, [DOT], ms[i].key);
    }
  }

  lemma {:induction false} WritesHold(client: Client, puts: seq<Put>, more: seq<Put>, db: Db)
    requires AllSendable(client, puts) && AllSendable(client, more) && Reflects(client, puts, db)
    ensures var (after, end) := SaveAll(client, db, CallsOf(more));
            AllSendable(client, puts + more) && end == Ok(()) && Reflects(client, puts + more, after)
    decreases |more|
  {
    hide Sendable, Reflects, SaveData, CallOf;
    if more == [] {
      assert puts + more == puts;
    } else {
      var n := |more| - 1;
      assert more[..n] + [more[n]] == more;
      WritesHold(client, puts, more[..n], db);
      var all := puts + more;
      assert all[..|all| - 1] == puts + more[..n] && all[|all| - 1] == more[n];
      assert CallsOf(more)[..n] == CallsOf(more[..n]);
      SaveHolds(client, all, SaveAll(client, db, CallsOf(more[..n])).0);
    }
  }

  /** After any run of saves the store holds exactly the latest points of what was written. */
  lemma {:induction false} RunHolds(client: Client, run: seq<Sent>, now: int)
    requires AllSent(client, run)
    ensures Reflects(client, AllPuts(client, run), Run(client, run, now))
  {
    hide IsSent, PutsOf, EntryKey, Reflects, AllSendable, Calls, CallsOf, SourceFor, TimeOf, IsAttribute;
    if run == [] {
      NothingHeld(client);
    } else {
      var n := |run| - 1;
      RunHolds(client, run[..n], now);
      EntryCalls(client, run[n], now);
      WritesHold(client, AllPuts(client, run[..n]), PutsOf(client, run[n]), Run(client, run[..n], now));
    }
  }
}
