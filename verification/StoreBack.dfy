/** What comes back of a run that was stored and loaded, and under which source. */
module StoreBack {
  import opened Units
  import opened JsonValues
  import opened Printer
  import opened SignalKKeys
  import opened FullFormat
  import opened Store
  import opened StoreRuns
  import opened StoreView
  import opened StoreLoad

  // ---------------------------------------------------------------- when everything is shown

  /** The series of an answer: all that the store holds, each at least once. */
  ghost predicate IsAnswer(points: Points, order: seq<Series>) {
    forall r :: r in order <==> r in points
  }

  ghost predicate LoadsBack(client: Client, puts: seq<Put>, points: Points, order: seq<Series>)
    requires AllSendable(client, puts)
  {
    IsAnswer(points, order) ==>
      && Wrote(client, puts, Slots(puts))
      && var loaded := LoadAll(client, map[], points, order);
         loaded.Ok? && ShowsAll(client, puts, Slots(puts), loaded.value)
  }

  /** Two values of different kinds of one first source: the field finds no object to be set on. */
  lemma MixedFails(client: Client, puts: seq<Put>, points: Points, s: Slot, r: Slot)
    requires AllSendable(client, puts) && Keeps(client, puts, points)
    requires WasPut(client, puts, s) && WasPut(client, puts, r) && s.writer == r.writer && IsFirst(puts, s.writer)
    requires s.field.None? && r.field.Some?
    ensures var order := [SeriesIn(puts, s), SeriesIn(puts, r)];
            (forall t :: t in order ==> t in points) && LoadAll(client, map[], points, order) == Err(Unsupported)
  {
    hide Joined, Latest, AllSendable, IsFirst, IsSlot, LoadSeries, SeriesFor, IsReadable, JsonOf, Keeps;
    var order := [SeriesIn(puts, s), SeriesIn(puts, r)];
    var p, q := Latest(client, puts, s).value, Latest(client, puts, r).value;
    InPoints(client, puts, points, s);
    InPoints(client, puts, points, r);
    LatestReadable(client, puts, s);
    LatestReadable(client, puts, r);
    ReadableReads(client, p);
    LoadsSlot(client, map[], s, true, p);
    var m := LoadSeries(client, map[], SeriesIn(puts, s), p).value;
    LoadsSlot(client, m, r, true, q);
    assert order[..1] == [order[0]] && [order[0]][..0] == [];
    assert LoadAll(client, map[], points, []) == Ok(map[]);
    assert LoadAll(client, map[], points, order[..1]) == Ok(m);
  }

  lemma InPoints(client: Client, puts: seq<Put>, points: Points, s: Slot)
    requires AllSendable(client, puts) && Keeps(client, puts, points) && WasPut(client, puts, s)
    ensures SeriesIn(puts, s) in points && points[SeriesIn(puts, s)] == Latest(client, puts, s).value
  {
    hide Latest, AllSendable, IsFirst, IsSlot, SeriesFor;
  }

  lemma {:induction false} Enumerated(rs: set<Series>) returns (order: seq<Series>)
    ensures forall r :: r in order <==> r in rs
    decreases |rs|
  {
    order := [];
    if rs != {} {
      var r :| r in rs;
      var rest := Enumerated(rs - {r});
      order := rest + [r];
    }
  }

  /**
   * Store, then load: after any run of saves into an empty store, whatever order the series come back in, each path shows the
   * latest points of the first source that wrote it, and under `values` those of every other. This holds exactly if no
   * first source mixes values with objects.
   */
  lemma StoreThenLoad(client: Client, run: seq<Sent>, now: int)
    requires AllSent(client, run)
    ensures OneKind(client, AllPuts(client, run)) <==>
              forall order :: LoadsBack(client, AllPuts(client, run), Run(client, run, now).points, order)
  {
    hide AllSent, OneKind, LoadsBack, Keeps, AllVoted, AllPuts, Run, AllSendable;
    var puts, points := AllPuts(client, run), Run(client, run, now).points;
    RunHolds(client, run, now);
    if OneKind(client, puts) {
      forall order
        ensures LoadsBack(client, puts, points, order)
      {
        KindLoads(client, puts, points, order);
      }
    } else {
      var order := MixedOrder(client, puts, points);
      assert !LoadsBack(client, puts, points, order);
    }
  }

  lemma KindLoads(client: Client, puts: seq<Put>, points: Points, order: seq<Series>)
    requires AllSendable(client, puts) && Keeps(client, puts, points) && OneKind(client, puts)
    ensures LoadsBack(client, puts, points, order)
  {
    hide OneKind, Keeps, AllSendable, ShowsAll, LoadAll, Wrote;
    if IsAnswer(points, order) {
      AllLoaded(client, puts, points, order);
    }
  }

  lemma MixedOrder(client: Client, puts: seq<Put>, points: Points) returns (order: seq<Series>)
    requires AllSendable(client, puts) && Keeps(client, puts, points) && !OneKind(client, puts)
    ensures !LoadsBack(client, puts, points, order)
    ensures IsAnswer(points, order) && LoadAll(client, map[], points, order).Err?
  {
    hide Latest, AllSendable, IsFirst, IsSlot, SeriesFor, Keeps, LoadAll, ShowsAll;
    var s, r :| WasPut(client, puts, s) && WasPut(client, puts, r) && s.writer == r.writer && IsFirst(puts, s.writer)
                && !SameNode(s, r);
    if s.field.Some? {
      s, r := r, s;
    }
    MixedFails(client, puts, points, s, r);
    var two := [SeriesIn(puts, s), SeriesIn(puts, r)];
    var rest := Enumerated(points.Keys);
    order := two + rest;
    assert order[..2] == two;
    LoadingEnded(client, map[], points, order, 2);
  }

  // ---------------------------------------------------------------- under which source

  /** What a loaded map gives for a source: the value of the path if it is from the source, or that of its own node. */
  function OwnValue(m: Fields, w: Writer): Option<Json> {
    var node := FieldsAt(m, Joined(w.path));
    if SOURCE_REF in node && node[SOURCE_REF] == Str(Joined(w.source)) then FieldOrNone(node, VALUE)
    else FieldOrNone(FieldsAt(FieldsAt(node, VALUES), Joined(w.source)), VALUE)
  }

  function FieldOrNone(v: Fields, k: Text): Option<Json> {
    if k in v then Some(v[k]) else None
  }

  /** The latest value of a slot is found under its source. */
  ghost predicate UnderOwn(client: Client, puts: seq<Put>, m: Fields, s: Slot)
    requires AllSendable(client, puts) && WasPut(client, puts, s)
  {
    OwnValue(m, s.writer).Some? && ShowsSlot(client, puts, s, OwnValue(m, s.writer).value)
  }

  /** A field is found under the source with `.value` behind it. */
  ghost predicate Misplaced(client: Client, puts: seq<Put>, m: Fields, s: Slot)
    requires AllSendable(client, puts) && WasPut(client, puts, s)
  {
    var node := FieldsAt(FieldsAt(FieldsAt(m, Joined(s.writer.path)), VALUES), Joined(s.writer.source) + DOT_VALUE);
    VALUE in node && ShowsSlot(client, puts, s, node[VALUE])
  }

  lemma FirstWasPut(client: Client, puts: seq<Put>, s: Slot) returns (r: Slot)
    requires AllSendable(client, puts) && WasPut(client, puts, s)
    ensures WasPut(client, puts, r) && IsFirstOf(puts, r, s.writer.path)
  {
    hide IsSlot, Storable;
    WroteHasFirst(client, puts, s);
    r := FirstSlot(client, puts, s.writer.path);
  }

  lemma {:induction false} FirstSlot(client: Client, puts: seq<Put>, path: seq<Text>) returns (r: Slot)
    requires AllSendable(client, puts) && First(puts, path).Some?
    ensures WasPut(client, puts, r) && IsFirstOf(puts, r, path)
  {
    hide IsSlot, Storable, PointOf, Later;
    var n := |puts| - 1;
    assert Sendable(client, puts[n]);
    if First(puts[..n], path).Some? {
      r := FirstSlot(client, puts[..n], path);
    } else {
      r := puts[n].slot;
    }
  }

  /** What the view of a path says of one of its slots. */
  lemma ViewOfSlot(client: Client, puts: seq<Put>, m: Fields, s: Slot)
    requires AllSendable(client, puts) && Wrote(client, puts, Slots(puts)) && ShowsAll(client, puts, Slots(puts), m)
    requires WasPut(client, puts, s)
    ensures s in Slots(puts) && Joined(s.writer.path) in m
    ensures Shows(client, puts, Slots(puts), s.writer.path, m[Joined(s.writer.path)])
  {
    SlotsWrote(client, puts);
    hide Latest, AllSendable, IsFirst, IsSlot, Joined, Shows;
    assert s in Slots(puts);
  }

  lemma NodeShowsSlot(client: Client, puts: seq<Put>, ws: set<Slot>, s: Slot, v: Fields)
    requires AllSendable(client, puts) && Wrote(client, puts, ws) && ShowsNode(client, puts, ws, s, v) && s in ws
    ensures VALUE in v && ShowsSlot(client, puts, s, v[VALUE])
  {
    hide Latest, AllSendable, IsSlot, ShowsSlot, ValueAt, TimeAt;
    assert SameNode(s, s);
  }

  lemma FirstShown(client: Client, puts: seq<Put>, ws: set<Slot>, s: Slot, v: Json)
    requires AllSendable(client, puts) && Wrote(client, puts, ws) && Shows(client, puts, ws, s.writer.path, v) && s in ws
    requires IsFirst(puts, s.writer)
    ensures v.Obj? && SOURCE_REF in v.fields && v.fields[SOURCE_REF] == Str(Joined(s.writer.source))
    ensures VALUE in v.fields && ShowsSlot(client, puts, s, v.fields[VALUE])
  {
    hide Latest, AllSendable, IsFirst, IsSlot, Joined, ShowsSlot, ShowsNode, ShowsOthers, ValueAt, TimeAt;
    assert IsFirstOf(puts, s, s.writer.path);
    NodeShowsSlot(client, puts, ws, s, v.fields);
  }

  lemma FirstUnderOwn(client: Client, puts: seq<Put>, m: Fields, s: Slot)
    requires AllSendable(client, puts) && Wrote(client, puts, Slots(puts)) && ShowsAll(client, puts, Slots(puts), m)
    requires WasPut(client, puts, s) && IsFirst(puts, s.writer)
    ensures UnderOwn(client, puts, m, s)
  {
    hide Latest, AllSendable, IsFirst, IsSlot, Joined, ShowsSlot, Slots, Wrote, ShowsAll, Shows;
    ViewOfSlot(client, puts, m, s);
    FirstShown(client, puts, Slots(puts), s, m[Joined(s.writer.path)]);
  }

  /** The node of a path is marked with the first source, which is not this one. */
  lemma MarkedOther(client: Client, puts: seq<Put>, m: Fields, s: Slot)
    requires AllSendable(client, puts) && Wrote(client, puts, Slots(puts)) && ShowsAll(client, puts, Slots(puts), m)
    requires WasPut(client, puts, s) && !IsFirst(puts, s.writer)
    ensures var v := FieldsAt(m, Joined(s.writer.path));
            && SOURCE_REF in v && v[SOURCE_REF] != Str(Joined(s.writer.source))
            && VALUES in v && v[VALUES].Obj? && Nodes(client, puts, Slots(puts), s.writer.path, v[VALUES].fields)
  {
    ViewOfSlot(client, puts, m, s);
    var r := FirstWasPut(client, puts, s);
    SlotsWrote(client, puts);
    SourceOfSlots(s, r);
    hide Latest, AllSendable, IsSlot, Joined, ShowsNode, Slots, Wrote, ShowsAll, ValueAt, TimeAt, Nodes;
    assert r in Slots(puts) && IsOther(puts, s, s.writer.path);
  }

  lemma SourceOfSlots(s: Slot, r: Slot)
    requires IsSlot(s) && IsSlot(r)
    ensures Joined(s.writer.source) == Joined(r.writer.source) <==> s.writer.source == r.writer.source
  {
    SourcesDiffer(s.writer.source, r.writer.source);
  }

  lemma OtherNode(client: Client, puts: seq<Put>, values: Fields, s: Slot)
    requires AllSendable(client, puts) && Wrote(client, puts, Slots(puts)) && WasPut(client, puts, s)
    requires Nodes(client, puts, Slots(puts), s.writer.path, values) && !IsFirst(puts, s.writer)
    ensures NodeKey(s) in values && values[NodeKey(s)].Obj?
    ensures VALUE in values[NodeKey(s)].fields && ShowsSlot(client, puts, s, values[NodeKey(s)].fields[VALUE])
  {
    SlotsWrote(client, puts);
    hide Latest, AllSendable, IsFirst, IsSlot, NodeKey, ShowsSlot, Slots, Wrote, ValueAt, TimeAt;
    assert s in Slots(puts) && IsOther(puts, s, s.writer.path) && SameNode(s, s);
  }

  lemma OtherMisplaced(client: Client, puts: seq<Put>, m: Fields, s: Slot)
    requires AllSendable(client, puts) && Wrote(client, puts, Slots(puts)) && ShowsAll(client, puts, Slots(puts), m)
    requires WasPut(client, puts, s) && !IsFirst(puts, s.writer)
    ensures s.field.None? ==> UnderOwn(client, puts, m, s)
    ensures s.field.Some? ==> Misplaced(client, puts, m, s)
  {
    hide Latest, AllSendable, IsFirst, IsSlot, Joined, ShowsSlot, Slots, Wrote, ShowsAll, Nodes, NodeKey;
    MarkedOther(client, puts, m, s);
    var values := FieldsAt(m, Joined(s.writer.path))[VALUES].fields;
    OtherNode(client, puts, values, s);
    OtherPlaced(client, puts, m, s);
  }

  lemma OtherPlaced(client: Client, puts: seq<Put>, m: Fields, s: Slot)
    requires AllSendable(client, puts) && WasPut(client, puts, s)
    requires var v := FieldsAt(m, Joined(s.writer.path));
             && SOURCE_REF in v && v[SOURCE_REF] != Str(Joined(s.writer.source)) && VALUES in v && v[VALUES].Obj?
             && var values := v[VALUES].fields;
                && NodeKey(s) in values && values[NodeKey(s)].Obj?
                && VALUE in values[NodeKey(s)].fields && ShowsSlot(client, puts, s, values[NodeKey(s)].fields[VALUE])
    ensures s.field.None? ==> UnderOwn(client, puts, m, s)
    ensures s.field.Some? ==> Misplaced(client, puts, m, s)
  {
    hide Latest, AllSendable, IsSlot, Joined, ShowsSlot;
  }

  /** A source that is not the first has at most a scalar under its name. */
  lemma OwnIsScalar(client: Client, puts: seq<Put>, m: Fields, s: Slot)
    requires AllSendable(client, puts) && Wrote(client, puts, Slots(puts)) && ShowsAll(client, puts, Slots(puts), m)
    requires WasPut(client, puts, s) && !IsFirst(puts, s.writer)
    ensures OwnValue(m, s.writer).Some? ==> IsScalar(OwnValue(m, s.writer).value)
  {
    MarkedOther(client, puts, m, s);
    var values := FieldsAt(m, Joined(s.writer.path))[VALUES].fields;
    hide Latest, AllSendable, IsFirst, IsSlot, Joined, ShowsSlot, Wrote, ShowsAll, JsonOf, IsReadable;
    if Joined(s.writer.source) in values {
      var r :| r in Slots(puts) && IsOther(puts, r, s.writer.path) && Joined(s.writer.source) == NodeKey(r);
      SlotsWrote(client, puts);
      var own := Slot(s.writer, None);
      OwnSlot(s, own);
      NodesDiffer(own, r);
      OtherNode(client, puts, values, r);
      LatestReadable(client, puts, r);
      ReadableReads(client, Latest(client, puts, r).value);
      ScalarShown(client, puts, r, values[NodeKey(r)].fields[VALUE]);
    }
  }

  lemma OwnSlot(s: Slot, own: Slot)
    requires IsSlot(s) && own == Slot(s.writer, None)
    ensures IsSlot(own) && NodeKey(own) == Joined(s.writer.source)
  {
  }

  lemma ScalarShown(client: Client, puts: seq<Put>, r: Slot, v: Json)
    requires AllSendable(client, puts) && WasPut(client, puts, r) && r.field.None? && ShowsSlot(client, puts, r, v)
    requires JsonOf(client, Latest(client, puts, r).value).Ok? && IsScalar(JsonOf(client, Latest(client, puts, r).value).value)
    ensures IsScalar(v)
  {
    hide JsonOf, Latest;
  }

  /**
   * The latest value of a slot comes back under its own source exactly if it is a value without fields or its source was the
   * first of the path. Otherwise it comes back under another name.
   */
  lemma UnderOwnIff(client: Client, puts: seq<Put>, m: Fields, s: Slot)
    requires AllSendable(client, puts) && Wrote(client, puts, Slots(puts)) && ShowsAll(client, puts, Slots(puts), m)
    requires WasPut(client, puts, s)
    ensures UnderOwn(client, puts, m, s) <==> s.field.None? || IsFirst(puts, s.writer)
    ensures s.field.Some? && !IsFirst(puts, s.writer) ==> Misplaced(client, puts, m, s)
  {
    hide Latest, AllSendable, IsFirst, IsSlot, Joined, Wrote, ShowsAll, ValueAt, OwnValue, Misplaced;
    if IsFirst(puts, s.writer) {
      FirstUnderOwn(client, puts, m, s);
    } else {
      OtherMisplaced(client, puts, m, s);
      OwnIsScalar(client, puts, m, s);
    }
  }

  // ---------------------------------------------------------------- whole values

  /** The save at `i` is later than all others of its writer. */
  ghost predicate IsLatestSent(client: Client, run: seq<Sent>, i: nat) {
    && i < |run| && client.millis(run[i].time).Some?
    && forall j :: 0 <= j < |run| && j != i && run[j].writer == run[i].writer && client.millis(run[j].time).Some? ==>
                     client.millis(run[j].time).value < client.millis(run[i].time).value
  }

  /** No field is there twice. */
  predicate HasOnce(v: Doc) {
    v.Object? ==> forall i, j :: 0 <= i < j < |v.members| ==> v.members[i].key != v.members[j].key
  }

  function FieldNames(v: Doc): set<Text> {
    if v.Object? then set i | 0 <= i < |v.members| :: v.members[i].key else {}
  }

  lemma {:induction false} PutsAreSent(client: Client, run: seq<Sent>, j: nat) returns (k: nat)
    requires AllSent(client, run) && j < |AllPuts(client, run)|
    ensures k < |run| && run[k].writer == AllPuts(client, run)[j].slot.writer
    ensures client.millis(run[k].time) == Some(AllPuts(client, run)[j].millis)
    ensures AllPuts(client, run)[j].slot.field.Some? ==> AllPuts(client, run)[j].slot.field.value in FieldNames(run[k].value)
  {
    hide IsWriter, IsEntry, IsValue, Sendable;
    var n := |run| - 1;
    assert IsSent(client, run[n]);
    var a := AllPuts(client, run[..n]);
    if j < |a| {
      k := PutsAreSent(client, run[..n], j);
    } else {
      assert AllPuts(client, run)[j] == PutsOf(client, run[n])[j - |a|];
      k := n;
      NamesOfPuts(client, run[n]);
    }
  }

  lemma OfSent(client: Client, s: Sent)
    requires IsSent(client, s)
    ensures forall k :: 0 <= k < |PutsOf(client, s)| ==>
              PutsOf(client, s)[k].slot.writer == s.writer && PutsOf(client, s)[k].millis == client.millis(s.time).value
  {
    hide IsWriter, IsEntry, Storable;
  }

  lemma NamesOfPuts(client: Client, s: Sent)
    requires IsSent(client, s)
    ensures forall k :: 0 <= k < |PutsOf(client, s)| && PutsOf(client, s)[k].slot.field.Some? ==>
              PutsOf(client, s)[k].slot.field.value in FieldNames(s.value)
    ensures forall f :: f in FieldNames(s.value) ==>
              exists k :: 0 <= k < |PutsOf(client, s)| && PutsOf(client, s)[k].slot == Slot(s.writer, Some(f))
  {
    hide IsWriter, IsEntry, Storable;
    var b := PutsOf(client, s);
    if s.value.Object? {
      forall i | 0 <= i < |s.value.members|
        ensures b[i].slot == Slot(s.writer, Some(s.value.members[i].key))
      {
      }
    }
  }

  /** Every field of the latest save of a writer is the latest of its slot. */
  lemma {:induction false} EntryWins(client: Client, run: seq<Sent>, i: nat, k: nat) returns (at: nat)
    requires AllSent(client, run) && IsLatestSent(client, run, i) && HasOnce(run[i].value)
    requires IsSent(client, run[i]) && k < |PutsOf(client, run[i])|
    ensures IsLatest(AllPuts(client, run), at) && AllPuts(client, run)[at] == PutsOf(client, run[i])[k]
  {
    hide IsWriter, IsEntry, IsValue, Sendable, PutsOf;
    var n := |run| - 1;
    assert IsSent(client, run[n]);
    var a, b := AllPuts(client, run[..n]), PutsOf(client, run[n]);
    OfSent(client, run[n]);
    OfSent(client, run[i]);
    assert AllPuts(client, run) == a + b;
    if i < n {
      assert IsLatestSent(client, run[..n], i);
      at := EntryWins(client, run[..n], i, k);
      forall j | 0 <= j < |b| && b[j].slot == a[at].slot
        ensures b[j].millis < a[at].millis
      {
        assert b[j].slot.writer == run[n].writer;
      }
      StaysLatest(a, b, at);
    } else {
      at := |a| + k;
      forall j | 0 <= j < |a| && a[j].slot == b[k].slot
        ensures a[j].millis < b[k].millis
      {
        var l := PutsAreSent(client, run[..n], j);
      }
      BecomesLatest(client, a, run[n], k);
    }
  }

  lemma StaysLatest(a: seq<Put>, b: seq<Put>, at: nat)
    requires IsLatest(a, at) && forall j :: 0 <= j < |b| && b[j].slot == a[at].slot ==> b[j].millis < a[at].millis
    ensures IsLatest(a + b, at)
  {
    forall j | 0 <= j < |a + b| && j != at && (a + b)[j].slot == (a + b)[at].slot
      ensures (a + b)[j].millis < (a + b)[at].millis
    {
      assert j < |a| ==> (a + b)[j] == a[j];
      assert j >= |a| ==> (a + b)[j] == b[j - |a|];
    }
  }

  lemma BecomesLatest(client: Client, a: seq<Put>, s: Sent, k: nat)
    requires IsSent(client, s) && HasOnce(s.value) && k < |PutsOf(client, s)|
    requires forall j :: 0 <= j < |a| && a[j].slot == PutsOf(client, s)[k].slot ==> a[j].millis < PutsOf(client, s)[k].millis
    ensures IsLatest(a + PutsOf(client, s), |a| + k)
  {
    hide IsWriter, IsEntry, IsValue, Sendable, PutsOf;
    var b := PutsOf(client, s);
    var at := |a| + k;
    SlotsOnce(client, s);
    assert forall j :: 0 <= j < |a| ==> (a + b)[j] == a[j];
    assert forall j :: |a| <= j < |a + b| ==> (a + b)[j] == b[j - |a|];
  }

  lemma SlotsOnce(client: Client, s: Sent)
    requires IsSent(client, s) && HasOnce(s.value)
    ensures forall j, k :: 0 <= j < |PutsOf(client, s)| && 0 <= k < |PutsOf(client, s)| && j != k ==>
              PutsOf(client, s)[j].slot != PutsOf(client, s)[k].slot
  {
    hide IsWriter, IsEntry, Storable;
    var b := PutsOf(client, s);
    if s.value.Object? {
      assert forall j :: 0 <= j < |b| ==> b[j].slot == Slot(s.writer, Some(s.value.members[j].key));
    }
  }

  /** A value, or an object with all the fields that were sent. */
  predicate IsHeldBy(v: Json, sent: Doc) {
    match sent
    case Scalar(json) => v == json
    case Object(members) =>
      v.Obj? && forall i :: 0 <= i < |members| ==> members[i].key in v.fields && v.fields[members[i].key] == ValueOf(members[i].doc)
    case Array(_) => false
  }

  ghost predicate ComesBack(m: Fields, s: Sent) {
    OwnValue(m, s.writer).Some? && IsHeldBy(OwnValue(m, s.writer).value, s.value)
  }

  /** The slot of a put of the latest save shows what was sent. */
  lemma PutIsShown(client: Client, run: seq<Sent>, i: nat, k: nat)
    requires AllSent(client, run) && IsLatestSent(client, run, i) && HasOnce(run[i].value)
    requires IsSent(client, run[i]) && k < |PutsOf(client, run[i])|
    ensures var puts, p := AllPuts(client, run), PutsOf(client, run[i])[k];
            && WasPut(client, puts, p.slot) && ValueAt(client, puts, p.slot) == p.value
            && TimeAt(client, puts, p.slot) == Str(client.iso(p.millis))
  {
    hide IsSent, PutsOf, AllPuts, JsonOf, IsSlot, Storable, PointOf, IsReadable, Latest;
    var puts := AllPuts(client, run);
    var at := EntryWins(client, run, i, k);
    GreatestTimeWins(client, puts, at);
    PointReadsBack(client, puts[at]);
  }

  /**
   * The latest value of a source comes back under it exactly if it is no object or the source was the first to write its path:
   * the fields of an object of a later source stand under another name.
   */
  lemma ComesBackIff(client: Client, run: seq<Sent>, now: int, order: seq<Series>, i: nat)
    requires AllSent(client, run) && OneKind(client, AllPuts(client, run))
    requires IsAnswer(Run(client, run, now).points, order)
    requires IsLatestSent(client, run, i) && HasOnce(run[i].value) && run[i].value != Object([])
    ensures var loaded := LoadAll(client, map[], Run(client, run, now).points, order);
            loaded.Ok? && (ComesBack(loaded.value, run[i]) <==>
                           run[i].value.Scalar? || IsFirst(AllPuts(client, run), run[i].writer))
  {
    hide OneKind, Run, LoadAll, AllPuts, IsSent, AllSendable, ShowsAll, Wrote, IsLatestSent;
    var puts := AllPuts(client, run);
    StoreThenLoad(client, run, now);
    assert LoadsBack(client, puts, Run(client, run, now).points, order);
    var m := LoadAll(client, map[], Run(client, run, now).points, order).value;
    SentIs(client, run, i);
    ValueComesBackIff(client, run, i, m);
  }

  lemma SentIs(client: Client, run: seq<Sent>, i: nat)
    requires AllSent(client, run) && IsLatestSent(client, run, i)
    ensures i < |run| && IsSent(client, run[i])
  {
  }

  lemma ValueComesBackIff(client: Client, run: seq<Sent>, i: nat, m: Fields)
    requires AllSent(client, run) && IsLatestSent(client, run, i) && HasOnce(run[i].value) && run[i].value != Object([])
    requires var puts := AllPuts(client, run); Wrote(client, puts, Slots(puts)) && ShowsAll(client, puts, Slots(puts), m)
    ensures ComesBack(m, run[i]) <==> run[i].value.Scalar? || IsFirst(AllPuts(client, run), run[i].writer)
  {
    hide AllPuts, AllSendable, ShowsAll, Wrote, IsLatestSent, IsFirst, OwnValue, Latest, ValueAt, IsSlot, IsWriter, IsEntry, Storable;
    SentIs(client, run, i);
    var puts, s := AllPuts(client, run), run[i];
    var sent := PutsOf(client, s);
    forall k | 0 <= k < |sent|
      ensures WasPut(client, puts, sent[k].slot) && ValueAt(client, puts, sent[k].slot) == sent[k].value
      ensures UnderOwn(client, puts, m, sent[k].slot) <==> s.value.Scalar? || IsFirst(puts, s.writer)
    {
      PutIsShown(client, run, i, k);
      UnderOwnIff(client, puts, m, sent[k].slot);
    }
    assert WasPut(client, puts, sent[0].slot);
    if ComesBack(m, s) {
      assert UnderOwn(client, puts, m, sent[0].slot);
    }
    if s.value.Object? && IsFirst(puts, s.writer) {
      forall k | 0 <= k < |s.value.members|
        ensures OwnValue(m, s.writer).Some? && OwnValue(m, s.writer).value.Obj?
        ensures var f, own := s.value.members[k].key, OwnValue(m, s.writer).value.fields;
                f in own && own[f] == s.value.members[k].doc.json
      {
        assert sent[k].slot == Slot(s.writer, Some(s.value.members[k].key)) && UnderOwn(client, puts, m, sent[k].slot);
      }
      assert OwnValue(m, s.writer).Some? && OwnValue(m, s.writer).value.Obj? by {
        assert UnderOwn(client, puts, m, sent[0].slot);
      }
    }
  }

  // ---------------------------------------------------------------- nothing beside it

  /** What was sent at any time is in the writes. */
  lemma {:induction false} SentIsPut(client: Client, run: seq<Sent>, j: nat, k: nat) returns (at: nat)
    requires AllSent(client, run) && j < |run| && IsSent(client, run[j]) && k < |PutsOf(client, run[j])|
    ensures at < |AllPuts(client, run)| && AllPuts(client, run)[at] == PutsOf(client, run[j])[k]
  {
    hide IsSent, PutsOf, Sendable;
    var n := |run| - 1;
    assert IsSent(client, run[n]);
    var a := AllPuts(client, run[..n]);
    assert AllPuts(client, run) == a + PutsOf(client, run[n]);
    if j < n {
      at := SentIsPut(client, run[..n], j, k);
    } else {
      at := |a| + k;
    }
  }

  /** All fields the source ever sent for the path are in the value at `i`. */
  predicate HasAllFields(run: seq<Sent>, i: nat)
    requires i < |run|
  {
    forall j :: 0 <= j < |run| && run[j].writer == run[i].writer ==> FieldNames(run[j].value) <= FieldNames(run[i].value)
  }

  /** The fields under a first source are those of its slots. */
  lemma OwnFields(client: Client, puts: seq<Put>, m: Fields, s: Slot)
    requires AllSendable(client, puts) && Wrote(client, puts, Slots(puts)) && ShowsAll(client, puts, Slots(puts), m)
    requires WasPut(client, puts, s) && IsFirst(puts, s.writer) && s.field.Some?
    ensures OwnValue(m, s.writer).Some? && OwnValue(m, s.writer).value.Obj?
    ensures forall f :: f in OwnValue(m, s.writer).value.fields ==> Slot(s.writer, Some(f)) in Slots(puts)
  {
    hide Latest, AllSendable, IsFirst, IsSlot, Joined, ShowsSlot, Slots, Wrote, ShowsAll, Shows;
    ViewOfSlot(client, puts, m, s);
    FirstFields(client, puts, Slots(puts), s, m[Joined(s.writer.path)]);
  }

  lemma FirstFields(client: Client, puts: seq<Put>, ws: set<Slot>, s: Slot, v: Json)
    requires AllSendable(client, puts) && Wrote(client, puts, ws) && Shows(client, puts, ws, s.writer.path, v) && s in ws
    requires IsFirst(puts, s.writer) && s.field.Some?
    ensures v.Obj? && SOURCE_REF in v.fields && v.fields[SOURCE_REF] == Str(Joined(s.writer.source))
    ensures VALUE in v.fields && v.fields[VALUE].Obj?
    ensures forall f :: f in v.fields[VALUE].fields ==> Slot(s.writer, Some(f)) in ws
  {
    hide Latest, AllSendable, IsFirst, IsSlot, Joined, ShowsSlot, ShowsOthers, ValueAt, TimeAt;
    assert IsFirstOf(puts, s, s.writer.path);
  }

  lemma FieldIsSent(client: Client, run: seq<Sent>, s: Slot) returns (j: nat)
    requires AllSent(client, run) && s in Slots(AllPuts(client, run)) && s.field.Some?
    ensures j < |run| && run[j].writer == s.writer && s.field.value in FieldNames(run[j].value)
  {
    hide IsSent, AllPuts;
    var at :| 0 <= at < |AllPuts(client, run)| && AllPuts(client, run)[at].slot == s;
    j := PutsAreSent(client, run, at);
  }

  lemma SentIsWasPut(client: Client, run: seq<Sent>, j: nat, f: Text)
    requires AllSent(client, run) && j < |run| && f in FieldNames(run[j].value)
    ensures WasPut(client, AllPuts(client, run), Slot(run[j].writer, Some(f)))
  {
    hide IsWriter, IsEntry, IsValue, Latest, IsSlot, AllPuts, PutsOf;
    assert IsSent(client, run[j]);
    NamesOfPuts(client, run[j]);
    var k :| 0 <= k < |PutsOf(client, run[j])| && PutsOf(client, run[j])[k].slot == Slot(run[j].writer, Some(f));
    var at := SentIsPut(client, run, j, k);
    SlotsWrote(client, AllPuts(client, run));
    assert AllPuts(client, run)[at].slot in Slots(AllPuts(client, run));
  }

  predicate HasMember(members: seq<Member>, f: Text) {
    exists i :: 0 <= i < |members| && members[i].key == f
  }

  lemma HasMemberStep(members: seq<Member>, f: Text)
    requires members != []
    ensures HasMember(members, f) <==> f == members[0].key || HasMember(members[1..], f)
  {
    var rest := members[1..];
    if i :| 0 <= i < |rest| && rest[i].key == f {
      assert members[i + 1].key == f;
    }
    if i :| 0 <= i < |members| && members[i].key == f {
      assert i > 0 ==> rest[i - 1].key == f;
    }
  }

  lemma {:induction false} FieldsAsSent(members: seq<Member>)
    requires forall i, j :: 0 <= i < j < |members| ==> members[i].key != members[j].key
    ensures forall f :: f in FieldsOf(members) <==> HasMember(members, f)
    ensures forall i :: 0 <= i < |members| ==>
              members[i].key in FieldsOf(members) && FieldsOf(members)[members[i].key] == ValueOf(members[i].doc)
    decreases |members|
  {
    hide ValueOf, HasMember;
    if members == [] {
      NoMember();
    } else {
      var rest := members[1..];
      forall k | 0 <= k < |rest|
        ensures rest[k] == members[k + 1] && rest[k].key != members[0].key
      {
      }
      forall i, j | 0 <= i < j < |rest|
        ensures rest[i].key != rest[j].key
      {
      }
      FieldsAsSent(rest);
      assert FieldsOf(members) == map[members[0].key := ValueOf(members[0].doc)] + FieldsOf(rest);
      hide FieldsOf;
      forall f
        ensures f in FieldsOf(members) <==> HasMember(members, f)
      {
        HasMemberStep(members, f);
      }
      HeadIsNew(members, rest);
      forall i | 0 <= i < |members|
        ensures members[i].key in FieldsOf(members) && FieldsOf(members)[members[i].key] == ValueOf(members[i].doc)
      {
        assert i > 0 ==> rest[i - 1] == members[i];
      }
    }
  }

  lemma NoMember()
    ensures forall f :: !HasMember([], f)
  {
  }

  lemma HeadIsNew(members: seq<Member>, rest: seq<Member>)
    requires members != [] && forall k :: 0 <= k < |rest| ==> rest[k].key != members[0].key
    ensures !HasMember(rest, members[0].key)
  {
  }

  /** Whole, and nothing beside it. */
  predicate ComesBackWhole(m: Fields, s: Sent) {
    OwnValue(m, s.writer) == Some(ValueOf(s.value))
  }

  lemma AllFieldsIff(names: set<Text>, run: seq<Sent>, i: nat)
    requires i < |run|
    requires forall f :: f in names <==> exists j :: 0 <= j < |run| && run[j].writer == run[i].writer && f in FieldNames(run[j].value)
    ensures names == FieldNames(run[i].value) <==> HasAllFields(run, i)
  {
    hide FieldNames;
    assert FieldNames(run[i].value) <= names;
    forall j | 0 <= j < |run| && run[j].writer == run[i].writer
      ensures FieldNames(run[j].value) <= names
    {
    }
  }

  lemma NamesAsSent(members: seq<Member>)
    requires HasOnce(Object(members))
    ensures FieldsOf(members).Keys == FieldNames(Object(members)) && ValueOf(Object(members)) == Obj(FieldsOf(members))
  {
    FieldsAsSent(members);
    assert ValueOf(Object(members)) == Obj(FieldsOf(members));
    hide ValueOf, FieldsOf;
    assert forall f :: f in FieldNames(Object(members)) <==> f in FieldsOf(members);
  }

  lemma HeldIsWhole(own: Fields, members: seq<Member>)
    requires HasOnce(Object(members)) && own.Keys == FieldsOf(members).Keys && IsHeldBy(Obj(own), Object(members))
    ensures own == FieldsOf(members)
  {
    FieldsAsSent(members);
    hide ValueOf, FieldsOf;
    forall f | f in own
      ensures own[f] == FieldsOf(members)[f]
    {
    }
  }

  lemma WholeIfAll(own: Fields, run: seq<Sent>, i: nat)
    requires i < |run| && run[i].value.Object? && HasOnce(run[i].value) && IsHeldBy(Obj(own), run[i].value)
    requires forall f :: f in own <==> exists j :: 0 <= j < |run| && run[j].writer == run[i].writer && f in FieldNames(run[j].value)
    ensures Obj(own) == ValueOf(run[i].value) <==> HasAllFields(run, i)
  {
    hide ValueOf, FieldsOf, FieldNames, HasAllFields, IsHeldBy, HasOnce;
    NamesAsSent(run[i].value.members);
    if own.Keys == FieldNames(run[i].value) {
      HeldIsWhole(own, run[i].value.members);
    }
    AllFieldsIff(own.Keys, run, i);
  }

  lemma WholeIsHeld(v: Json, sent: Doc)
    requires HasOnce(sent) && !sent.Array? && v == ValueOf(sent)
    ensures IsHeldBy(v, sent)
  {
    if sent.Object? {
      FieldsAsSent(sent.members);
      hide ValueOf, FieldsOf;
    }
  }

  lemma WholeIff(client: Client, run: seq<Sent>, i: nat, m: Fields)
    requires AllSent(client, run) && IsLatestSent(client, run, i) && HasOnce(run[i].value) && run[i].value != Object([])
    requires var puts := AllPuts(client, run); Wrote(client, puts, Slots(puts)) && ShowsAll(client, puts, Slots(puts), m)
    ensures ComesBackWhole(m, run[i]) <==> ComesBack(m, run[i]) && (run[i].value.Scalar? || HasAllFields(run, i))
  {
    hide AllSent, AllPuts, AllSendable, ShowsAll, Wrote, IsLatestSent, IsFirst, OwnValue, IsHeldBy, HasAllFields;
    SentIs(client, run, i);
    var s := run[i];
    SentIsNoArray(client, s);
    if ComesBackWhole(m, s) {
      WholeIsHeld(OwnValue(m, s.writer).value, s.value);
    }
    if s.value.Scalar? {
      ScalarWhole(m, s);
    } else if ComesBack(m, s) {
      ValueComesBackIff(client, run, i, m);
      WholeFields(client, run, i, m);
      WholeIfAll(OwnValue(m, s.writer).value.fields, run, i);
    }
  }

  lemma SentIsNoArray(client: Client, s: Sent)
    requires IsSent(client, s)
    ensures !s.value.Array?
  {
  }

  lemma ScalarWhole(m: Fields, s: Sent)
    requires s.value.Scalar?
    ensures ComesBack(m, s) <==> ComesBackWhole(m, s)
  {
    hide OwnValue;
  }

  /** The object that comes back has the fields that the source ever sent. */
  lemma WholeFields(client: Client, run: seq<Sent>, i: nat, m: Fields)
    requires AllSent(client, run) && i < |run| && run[i].value.Object? && run[i].value != Object([])
    requires var puts := AllPuts(client, run);
             && Wrote(client, puts, Slots(puts)) && ShowsAll(client, puts, Slots(puts), m) && IsFirst(puts, run[i].writer)
    ensures OwnValue(m, run[i].writer).Some? && OwnValue(m, run[i].writer).value.Obj?
    ensures forall f :: f in OwnValue(m, run[i].writer).value.fields <==>
              exists j :: 0 <= j < |run| && run[j].writer == run[i].writer && f in FieldNames(run[j].value)
  {
    hide AllSent, AllPuts, AllSendable, ShowsAll, Wrote, IsFirst, OwnValue, Latest, IsSlot, Slots;
    var puts, w := AllPuts(client, run), run[i].writer;
    var f0 := run[i].value.members[0].key;
    assert f0 in FieldNames(run[i].value);
    SentIsWasPut(client, run, i, f0);
    OwnFields(client, puts, m, Slot(w, Some(f0)));
    var own := OwnValue(m, w).value.fields;
    forall f
      ensures f in own <==> exists j :: 0 <= j < |run| && run[j].writer == w && f in FieldNames(run[j].value)
    {
      if f in own {
        var j := FieldIsSent(client, run, Slot(w, Some(f)));
      }
      if j :| 0 <= j < |run| && run[j].writer == w && f in FieldNames(run[j].value) {
        SentIsWasPut(client, run, j, f);
        UnderOwnIff(client, puts, m, Slot(w, Some(f)));
      }
    }
  }

  /**
   * The latest value of a source comes back whole and with nothing beside it exactly if it is no object, or the source was
   * the first to write its path and never sent another field: older fields are never taken out of the store.
   */
  lemma ComesBackWholeIff(client: Client, run: seq<Sent>, now: int, order: seq<Series>, i: nat)
    requires AllSent(client, run) && OneKind(client, AllPuts(client, run))
    requires IsAnswer(Run(client, run, now).points, order)
    requires IsLatestSent(client, run, i) && HasOnce(run[i].value) && run[i].value != Object([])
    ensures var loaded := LoadAll(client, map[], Run(client, run, now).points, order);
            loaded.Ok? && (ComesBackWhole(loaded.value, run[i]) <==>
                           || run[i].value.Scalar?
                           || (IsFirst(AllPuts(client, run), run[i].writer) && HasAllFields(run, i)))
  {
    hide OneKind, Run, LoadAll, AllPuts, AllSent, AllSendable, ShowsAll, Wrote, IsLatestSent, ComesBack, ComesBackWhole, HasAllFields;
    var puts := AllPuts(client, run);
    ComesBackIff(client, run, now, order, i);
    StoreThenLoad(client, run, now);
    assert LoadsBack(client, puts, Run(client, run, now).points, order);
    WholeIff(client, run, i, LoadAll(client, map[], Run(client, run, now).points, order).value);
  }

  // ---------------------------------------------------------------- a second source

  function SentBy(w: Writer, v: Doc, time: Text): Sent {
    Sent(w, v, time,
      Object([Member(VALUE, v), Member(SOURCE_REF, Scalar(Str(Joined(w.source)))), Member(TIMESTAMP, Scalar(Str(time)))]))
  }

  /** A source with a name of one letter, for the path `vessels.a.b`. */
  function Sensor(letter: Unit): Writer {
    Writer([VESSELS, [0x61], [0x62]], [[letter]])
  }

  lemma SensorKey(letter: Unit)
    requires letter != DOT
    ensures EntryKey(Sensor(letter)) ==
      VESSELS + [DOT] + ([0x61] + [DOT] + [0x62]) + DOT_VALUES_DOT + [letter]
  {
    var path: seq<Text>, p1: seq<Text>, p2: seq<Text> := [VESSELS, [0x61], [0x62]], [[0x61], [0x62]], [[0x62]];
    assert path[1..] == p1 && p1[1..] == p2;
    assert Joined(p2) == [0x62] && Joined([[letter]]) == [letter];
    assert Joined(p1) == [0x61] + [DOT] + [0x62];
  }

  lemma SensorIsWriter(letter: Unit)
    requires 0x61 <= letter <= 0x7A
    ensures IsWriter(Sensor(letter))
  {
    var w := Sensor(letter);
    SensorKey(letter);
    var key, part := EntryKey(w), [DOT] + ATTR;
    forall j | 0 <= j <= |key|
      ensures !(part <= key[j..])
    {
      assert part[1] == 0x5F;
      assert 0x5F !in key;
      assert j + 1 < |key| ==> key[j..][1] == key[j + 1];
    }
    Nowhere(key, part);
    assert |VALUES| == 6 && |META| == 4 && |VALUE| == 5 && IsSegment(VESSELS);
    assert Joined([[letter]]) == [letter] && !IsWhitespace([letter][0]);
    assert !IsAttribute(key);
  }

  lemma EntryIsSent(client: Client, w: Writer, v: Doc, time: Text)
    requires IsWriter(w) && IsValue(client, v) && client.millis(time).Some?
    ensures IsSent(client, SentBy(w, v, time))
  {
    hide IsWriter, IsValue, Joined;
    var ms := SentBy(w, v, time).doc.members;
    var m1, m2 := [ms[1], ms[2]], [ms[2]];
    assert ms[1..] == m1 && m1[1..] == m2 && m2[1..] == [];
    assert forall name :: MemberAt(m2, name) == if name == TIMESTAMP then Some(ms[2].doc) else None;
    assert forall name :: MemberAt(m1, name) == if name == SOURCE_REF then Some(ms[1].doc) else MemberAt(m2, name);
    assert |VALUES| == 6 && |META| == 4 && |SENTENCE| == 8 && |VALUE| == 5 && |SOURCE_REF| == 7 && |TIMESTAMP| == 9;
    assert forall name :: MemberAt(ms, name) == if name == VALUE then Some(ms[0].doc) else MemberAt(m1, name);
    assert IsEntry(SentBy(w, v, time));
  }

  /** An object with one field, the name of which has one letter. */
  function Flagged(letter: Unit): Doc {
    Object([Member([letter], Scalar(Bool(true)))])
  }

  /** Two sources send the same object: that of the first comes back, that of the second does not. */
  lemma SecondSourceMisplaced(client: Client, time: Text, now: int, order: seq<Series>)
    requires client.millis(time).Some?
    ensures var v := Flagged(0x78);
            var run := [SentBy(Sensor(0x63), v, time), SentBy(Sensor(0x64), v, time)];
            IsAnswer(Run(client, run, now).points, order) ==>
              var loaded := LoadAll(client, map[], Run(client, run, now).points, order);
              loaded.Ok? && ComesBack(loaded.value, run[0]) && !ComesBack(loaded.value, run[1])
  {
    hide LoadAll, Run, IsSent, ComesBack, Joined, IsValue, IsWriter, OneKind, AllPuts, AllSent, IsFirst, IsLatestSent, HasOnce,
      Sensor;
    var v := Flagged(0x78);
    var a, b := SentBy(Sensor(0x63), v, time), SentBy(Sensor(0x64), v, time);
    SensorIsWriter(0x63);
    SensorIsWriter(0x64);
    FieldIsValue(client, 0x78);
    EntryIsSent(client, Sensor(0x63), v, time);
    EntryIsSent(client, Sensor(0x64), v, time);
    TwoPuts(client, time, v, [a, b]);
    if IsAnswer(Run(client, [a, b], now).points, order) {
      ComesBackIff(client, [a, b], now, order, 0);
      ComesBackIff(client, [a, b], now, order, 1);
    }
  }

  lemma FieldIsValue(client: Client, letter: Unit)
    requires 0x61 <= letter <= 0x7A
    ensures IsValue(client, Flagged(letter)) && HasOnce(Flagged(letter))
  {
    var f: Text := [letter];
    assert |SENTENCE| == 8 && f[0] == letter && !IsWhitespace(letter);
    assert IsField(f);
  }

  lemma TwoPuts(client: Client, time: Text, v: Doc, run: seq<Sent>)
    requires client.millis(time).Some? && v == Flagged(0x78)
    requires run == [SentBy(Sensor(0x63), v, time), SentBy(Sensor(0x64), v, time)]
    requires IsSent(client, run[0]) && IsSent(client, run[1])
    ensures AllSent(client, run) && OneKind(client, AllPuts(client, run))
    ensures IsLatestSent(client, run, 0) && IsLatestSent(client, run, 1)
    ensures IsFirst(AllPuts(client, run), Sensor(0x63)) && !IsFirst(AllPuts(client, run), Sensor(0x64))
  {
    hide IsSent, IsWriter, IsEntry, IsValue, Joined, Latest;
    var w, u := Sensor(0x63), Sensor(0x64);
    assert w.source[0] != u.source[0];
    assert run[..1] == [run[0]] && [run[0]][..0] == [];
    var millis := client.millis(time).value;
    var a, b := Put(Slot(w, Some([0x78])), Bool(true), millis), Put(Slot(u, Some([0x78])), Bool(true), millis);
    PutOfField(client, run[0], w, 0x78, millis);
    PutOfField(client, run[1], u, 0x78, millis);
    assert AllPuts(client, run[..1]) == [] + [a];
    var puts := AllPuts(client, run);
    assert puts == [a] + [b] == [a, b];
    OfTwo(puts, a, b);
    SlotsWrote(client, puts);
    forall s | WasPut(client, puts, s)
      ensures s.field.Some?
    {
      assert s in Slots(puts);
    }
  }

  lemma OfTwo(puts: seq<Put>, a: Put, b: Put)
    requires puts == [a, b] && a.slot.writer.path == b.slot.writer.path && a.slot.writer.source != b.slot.writer.source
    ensures IsFirst(puts, a.slot.writer) && !IsFirst(puts, b.slot.writer)
  {
    assert puts[..1] == [a] && [a][..0] == [];
    assert First([a], a.slot.writer.path) == Some(a.slot.writer.source);
  }

  lemma PutOfField(client: Client, s: Sent, w: Writer, letter: Unit, millis: int)
    requires IsSent(client, s) && s.writer == w && s.value == Flagged(letter)
    requires client.millis(s.time) == Some(millis)
    ensures PutsOf(client, s) == [Put(Slot(w, Some([letter])), Bool(true), millis)]
  {
    hide IsWriter, IsEntry, Storable;
  }

  // ---------------------------------------------------------------- an older field

  /** One source sends one field, and then another: the first one still stands beside what was sent last. */
  lemma OlderFieldStays(client: Client, early: Text, late: Text, now: int, order: seq<Series>)
    requires client.millis(early).Some? && client.millis(late).Some?
    requires client.millis(early).value < client.millis(late).value
    ensures var w := Sensor(0x63);
            var run := [SentBy(w, Flagged(0x78), early), SentBy(w, Flagged(0x79), late)];
            IsAnswer(Run(client, run, now).points, order) ==>
              var loaded := LoadAll(client, map[], Run(client, run, now).points, order);
              loaded.Ok? && ComesBack(loaded.value, run[1]) && !ComesBackWhole(loaded.value, run[1])
  {
    hide LoadAll, Run, IsSent, ComesBack, ComesBackWhole, Joined, IsValue, IsWriter, OneKind, AllPuts, AllSent, IsFirst,
      IsLatestSent, HasOnce, HasAllFields, Sensor;
    var w := Sensor(0x63);
    var a, b := SentBy(w, Flagged(0x78), early), SentBy(w, Flagged(0x79), late);
    SensorIsWriter(0x63);
    FieldIsValue(client, 0x78);
    FieldIsValue(client, 0x79);
    EntryIsSent(client, w, Flagged(0x78), early);
    EntryIsSent(client, w, Flagged(0x79), late);
    TwoFields(client, w, [a, b]);
    if IsAnswer(Run(client, [a, b], now).points, order) {
      ComesBackIff(client, [a, b], now, order, 1);
      ComesBackWholeIff(client, [a, b], now, order, 1);
    }
  }

  lemma TwoFields(client: Client, w: Writer, run: seq<Sent>)
    requires |run| == 2 && IsSent(client, run[0]) && IsSent(client, run[1]) && run[0].writer == run[1].writer == w
    requires run[0].value == Flagged(0x78) && run[1].value == Flagged(0x79)
    requires client.millis(run[0].time).Some? && client.millis(run[1].time).Some?
    requires client.millis(run[0].time).value < client.millis(run[1].time).value
    ensures AllSent(client, run) && OneKind(client, AllPuts(client, run))
    ensures IsLatestSent(client, run, 1) && IsFirst(AllPuts(client, run), w) && !HasAllFields(run, 1)
  {
    hide IsSent, IsWriter, IsEntry, IsValue, Joined, Latest;
    var millis, millis' := client.millis(run[0].time).value, client.millis(run[1].time).value;
    var a, b := Put(Slot(w, Some([0x78])), Bool(true), millis), Put(Slot(w, Some([0x79])), Bool(true), millis');
    PutOfField(client, run[0], w, 0x78, millis);
    PutOfField(client, run[1], w, 0x79, millis');
    assert run[..1] == [run[0]] && [run[0]][..0] == [];
    assert AllPuts(client, run[..1]) == [] + [a];
    var puts := AllPuts(client, run);
    assert puts == [a] + [b] == [a, b];
    SlotsWrote(client, puts);
    forall s | WasPut(client, puts, s)
      ensures s.field.Some?
    {
      assert s in Slots(puts);
    }
    OfOne(puts, a, b);
    FieldsDiffer(run);
  }

  lemma OfOne(puts: seq<Put>, a: Put, b: Put)
    requires puts == [a, b] && a.slot.writer == b.slot.writer
    ensures IsFirst(puts, a.slot.writer)
  {
    assert puts[..1] == [a] && [a][..0] == [];
    assert First([a], a.slot.writer.path) == Some(a.slot.writer.source);
  }

  lemma FieldsDiffer(run: seq<Sent>)
    requires |run| == 2 && run[0].writer == run[1].writer
    requires run[0].value == Flagged(0x78) && run[1].value == Flagged(0x79)
    ensures !HasAllFields(run, 1)
  {
    var x: Text, y: Text := [0x78], [0x79];
    assert run[0].value.members[0].key == x;
    assert x in FieldNames(run[0].value);
    assert x[0] != y[0] && x !in FieldNames(run[1].value);
  }
}
