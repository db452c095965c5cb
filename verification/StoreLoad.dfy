/** Loading what a run has stored: the first source of a path is its value, the others stand under `values`. */
module StoreLoad {
  import opened Units
  import opened JsonValues
  import opened Printer
  import opened SignalKKeys
  import opened FullFormat
  import opened DeltaFormat
  import opened Store
  import opened StoreRuns
  import opened StoreView

  // ---------------------------------------------------------------- what is read out of a point

  /** Cells that only storable values can have left. */
  ghost predicate IsReadable(client: Client, p: Point) {
    && (LongValue in p.cells ==> p.cells[LongValue].Whole? && client.asDouble(p.cells[LongValue].n) == p.cells[LongValue].n)
    && (NullValue in p.cells ==> p.cells[NullValue] == Characters(TRUE))
    && (DoubleValue in p.cells ==> p.cells[DoubleValue].Real?)
    && (StrValue in p.cells ==> p.cells[StrValue].Characters?)
    && (StrValue in p.cells ==>
          p.cells[StrValue].t == TRUE || p.cells[StrValue].t == FALSE || !LooksLikeArray(p.cells[StrValue].t))
  }

  lemma ReadableReads(client: Client, p: Point)
    requires IsReadable(client, p)
    ensures JsonOf(client, p).Ok? && IsScalar(JsonOf(client, p).value)
  {
    hide LooksLikeArray;
  }

  /** A storable value comes back as it was. */
  lemma PointReadsBack(client: Client, p: Put)
    requires Sendable(client, p)
    ensures IsReadable(client, PointOf(client, p)) && JsonOf(client, PointOf(client, p)) == Ok(p.value)
    ensures PointOf(client, p).time == p.millis
  {
    hide IsSlot, LooksLikeArray;
    assert TRUE != FALSE;
  }

  lemma LaterIsReadable(client: Client, p: Point, q: Point)
    requires IsReadable(client, p) && IsReadable(client, q)
    ensures IsReadable(client, Later(p, q))
  {
    hide LooksLikeArray;
  }

  lemma {:induction false} LatestReadable(client: Client, puts: seq<Put>, s: Slot)
    requires AllSendable(client, puts) && Latest(client, puts, s).Some?
    ensures IsReadable(client, Latest(client, puts, s).value)
  {
    hide Sendable, IsReadable, PointOf, Later;
    var n := |puts| - 1;
    assert Sendable(client, puts[n]);
    if Latest(client, puts[..n], s).Some? {
      LatestReadable(client, puts[..n], s);
    }
    if puts[n].slot == s {
      PointReadsBack(client, puts[n]);
      if Latest(client, puts[..n], s).Some? {
        LaterIsReadable(client, Latest(client, puts[..n], s).value, PointOf(client, puts[n]));
      }
    }
  }

  /** The write at `i` is the latest of its slot: later than all others. */
  predicate IsLatest(puts: seq<Put>, i: nat) {
    i < |puts| && forall j :: 0 <= j < |puts| && j != i && puts[j].slot == puts[i].slot ==> puts[j].millis < puts[i].millis
  }

  lemma {:induction false} LatestBounded(client: Client, puts: seq<Put>, s: Slot, bound: int)
    requires AllSendable(client, puts)
    requires forall j :: 0 <= j < |puts| && puts[j].slot == s ==> puts[j].millis < bound
    ensures Latest(client, puts, s).Some? ==> Latest(client, puts, s).value.time < bound
  {
    hide IsSlot, FieldOf;
    if puts != [] {
      var n := |puts| - 1;
      LatestBounded(client, puts[..n], s, bound);
      assert Sendable(client, puts[n]);
    }
  }

  /** The point of a slot is that of its write with the greatest time. */
  lemma {:induction false} GreatestTimeWins(client: Client, puts: seq<Put>, i: nat)
    requires AllSendable(client, puts) && IsLatest(puts, i)
    ensures Sendable(client, puts[i]) && Latest(client, puts, puts[i].slot) == Some(PointOf(client, puts[i]))
  {
    hide IsSlot, FieldOf;
    var n := |puts| - 1;
    assert Sendable(client, puts[n]) && Sendable(client, puts[i]);
    if i == n {
      LatestBounded(client, puts[..n], puts[i].slot, puts[i].millis);
    } else {
      assert IsLatest(puts[..n], i);
      GreatestTimeWins(client, puts[..n], i);
    }
  }

  // ---------------------------------------------------------------- loading one series

  /** The value of a node with that of a slot in it. */
  function WithSlot(v: Fields, s: Slot, x: Json): Json {
    if s.field.None? then x
    else Obj((if VALUE in v && v[VALUE].Obj? then v[VALUE].fields else map[])[s.field.value := x])
  }

  function NodeWith(v: Fields, s: Slot, time: Json, x: Json): Fields {
    v[TIMESTAMP := time][VALUE := WithSlot(v, s, x)]
  }

  /** A field cannot be set on a value that is no object. */
  predicate TakesField(v: Fields, s: Slot) {
    s.field.Some? && VALUE in v ==> v[VALUE].Obj?
  }

  predicate HasRoom(parent: Json, s: Slot, primary: bool) {
    && parent.Obj?
    && if primary then TakesField(parent.fields, s)
       else VALUES in parent.fields ==>
         && parent.fields[VALUES].Obj?
         && var values := parent.fields[VALUES].fields;
            NodeKey(s) in values ==> values[NodeKey(s)].Obj? && TakesField(values[NodeKey(s)].fields, s)
  }

  function FieldsAt(v: Fields, k: Text): Fields {
    if k in v && v[k].Obj? then v[k].fields else map[]
  }

  /**
   * The node of a path once a slot is loaded into it. The first source is its value. Another source has a node under
   * `values`: under its name, or under its name and `.value` if its value is an object.
   */
  function LoadedInto(v: Fields, s: Slot, primary: bool, time: Json, x: Json): Fields {
    if primary then NodeWith(v[SOURCE_REF := Str(Joined(s.writer.source))], s, time, x)
    else
      var values := FieldsAt(v, VALUES);
      v[VALUES := Obj(values[NodeKey(s) := Obj(NodeWith(FieldsAt(values, NodeKey(s)), s, time, x))])]
  }

  lemma LoadsAsValue(client: Client, m: Fields, s: Slot, primary: bool, p: Point)
    requires IsSlot(s) && IsReadable(client, p)
    ensures JsonOf(client, p).Ok?
    ensures LoadSeries(client, m, SeriesFor(s, primary), p)
            == LoadValue(client, m, SeriesFor(s, primary), p, JsonOf(client, p).value, primary)
  {
    SeriesKey(s, primary);
    KeyReadBack(s);
    ReadableReads(client, p);
    hide IsReadable, JsonOf, LoadValue, SeriesFor, Joined, Contains, EndsWith, SubstringBeforeLast, SubstringAfterLast, Extracted,
      Segments, PrimaryKey, FullPath;
  }

  lemma BlankNothing()
    ensures Blank([])
  {
  }

  lemma FieldNotBlank(s: Slot)
    requires IsSlot(s) && s.field.Some?
    ensures !Blank(s.field.value)
  {
  }

  lemma Words()
    ensures TIMESTAMP != SOURCE_REF && TIMESTAMP != VALUE && SOURCE_REF != VALUE
    ensures VALUES != TIMESTAMP && VALUES != SOURCE_REF && VALUES != VALUE
  {
  }

  lemma ExtractsNode(client: Client, v: Fields, time: int, source: Option<Text>, s: Slot, x: Json)
    requires IsSlot(s)
    ensures Extracted(client, Obj(v), time, source, if s.field.Some? then s.field.value else [], x) ==
      var sourced := if source.Some? then v[SOURCE_REF := Str(source.value)] else v;
      if TakesField(v, s) then Ok(Obj(NodeWith(sourced, s, Str(client.iso(time)), x))) else Err(Unsupported)
  {
    Words();
    BlankNothing();
    if s.field.Some? {
      FieldNotBlank(s);
    }
    hide Blank;
    var timed := v[TIMESTAMP := Str(client.iso(time))];
    if source.Some? {
      assert timed[SOURCE_REF := Str(source.value)] == v[SOURCE_REF := Str(source.value)][TIMESTAMP := Str(client.iso(time))];
    }
  }

  /**
   * One series: what loading it does, for any slot and any readable point, and when it fails. A field of the value of a
   * source that is not the first goes to the node whose key is the source with `.value` behind it.
   */
  lemma LoadsSlot(client: Client, m: Fields, s: Slot, primary: bool, p: Point)
    requires IsSlot(s) && IsReadable(client, p)
    ensures JsonOf(client, p).Ok?
    ensures var path := Joined(s.writer.path);
            var parent := ParentAt(m, path);
            LoadSeries(client, m, SeriesFor(s, primary), p) ==
              if HasRoom(parent, s, primary)
              then Ok(m[path := Obj(LoadedInto(parent.fields, s, primary, Str(client.iso(p.time)), JsonOf(client, p).value))])
              else Err(Unsupported)
  {
    hide IsReadable, JsonOf, LoadSeries, LoadValue, SeriesFor, Joined, LoadedInto, HasRoom;
    LoadsAsValue(client, m, s, primary, p);
    ReadableReads(client, p);
    LoadsValue(client, m, s, primary, p, JsonOf(client, p).value);
  }

  lemma LoadsValue(client: Client, m: Fields, s: Slot, primary: bool, p: Point, v: Json)
    requires IsSlot(s) && !v.Arr?
    ensures var path := Joined(s.writer.path);
            var parent := ParentAt(m, path);
            LoadValue(client, m, SeriesFor(s, primary), p, v, primary) ==
              if HasRoom(parent, s, primary)
              then Ok(m[path := Obj(LoadedInto(parent.fields, s, primary, Str(client.iso(p.time)), v))])
              else Err(Unsupported)
  {
    hide SeriesFor, Joined, HasRoom, LoadedInto, LoadValue;
    if !ParentAt(m, Joined(s.writer.path)).Obj? {
      LoadsNowhere(client, m, s, primary, p, v);
    } else if primary {
      LoadsFirst(client, m, s, p, v);
    } else {
      LoadsUnderValues(client, m, s, p, v);
    }
  }

  lemma LoadsNowhere(client: Client, m: Fields, s: Slot, primary: bool, p: Point, v: Json)
    requires IsSlot(s) && !v.Arr? && !ParentAt(m, Joined(s.writer.path)).Obj?
    ensures LoadValue(client, m, SeriesFor(s, primary), p, v, primary) == Err(Unsupported)
    ensures !HasRoom(ParentAt(m, Joined(s.writer.path)), s, primary)
  {
    SeriesKey(s, primary);
    KeyReadBack(s);
    SourceReadBack(s);
    hide SeriesFor, Joined, SubstringBeforeLast, SubstringAfterLast, FullPath, ValueKey, NodeKey, Extracted, TakesField;
    hide PrimaryKey, Segments, Contains, EndsWith;
    var parent := ParentAt(m, Joined(s.writer.path));
    NoNode(client, parent, p.time, Some(Joined(s.writer.source)), if s.field.Some? then s.field.value else [], v);
  }

  lemma LoadsFirst(client: Client, m: Fields, s: Slot, p: Point, v: Json)
    requires IsSlot(s) && !v.Arr? && ParentAt(m, Joined(s.writer.path)).Obj?
    ensures var path := Joined(s.writer.path);
            var parent := ParentAt(m, path);
            LoadValue(client, m, SeriesFor(s, true), p, v, true) ==
              if HasRoom(parent, s, true)
              then Ok(m[path := Obj(LoadedInto(parent.fields, s, true, Str(client.iso(p.time)), v))])
              else Err(Unsupported)
  {
    SeriesKey(s, true);
    KeyReadBack(s);
    SourceReadBack(s);
    hide SeriesFor, Joined, SubstringBeforeLast, SubstringAfterLast, FullPath, ValueKey, NodeKey, Extracted, NodeWith, TakesField;
    hide PrimaryKey, Segments, Contains, EndsWith;
    ExtractsNode(client, ParentAt(m, Joined(s.writer.path)).fields, p.time, Some(Joined(s.writer.source)), s, v);
  }

  lemma LoadsUnderValues(client: Client, m: Fields, s: Slot, p: Point, v: Json)
    requires IsSlot(s) && !v.Arr? && ParentAt(m, Joined(s.writer.path)).Obj?
    ensures var path := Joined(s.writer.path);
            var parent := ParentAt(m, path);
            LoadValue(client, m, SeriesFor(s, false), p, v, false) ==
              if HasRoom(parent, s, false)
              then Ok(m[path := Obj(LoadedInto(parent.fields, s, false, Str(client.iso(p.time)), v))])
              else Err(Unsupported)
  {
    SeriesKey(s, false);
    KeyReadBack(s);
    SourceReadBack(s);
    hide SeriesFor, Joined, SubstringBeforeLast, SubstringAfterLast, FullPath, ValueKey, NodeKey, Extracted, NodeWith, TakesField;
    hide PrimaryKey, Segments, Contains, EndsWith;
    LoadsOther(client, ParentAt(m, Joined(s.writer.path)).fields, s, p.time, v);
  }

  lemma NoNode(client: Client, node: Json, time: int, source: Option<Text>, subkey: Text, v: Json)
    requires !node.Obj?
    ensures Extracted(client, node, time, source, subkey, v) == Err(Unsupported)
  {
  }

  lemma LoadsOther(client: Client, v: Fields, s: Slot, time: int, x: Json)
    requires IsSlot(s)
    ensures var values, subkey := ParentAt(v, VALUES), if s.field.Some? then s.field.value else [];
            if !values.Obj? then !HasRoom(Obj(v), s, false)
            else
              Extracted(client, ParentAt(values.fields, NodeKey(s)), time, None, subkey, x) ==
                if HasRoom(Obj(v), s, false)
                then Ok(Obj(NodeWith(FieldsAt(FieldsAt(v, VALUES), NodeKey(s)), s, Str(client.iso(time)), x)))
                else Err(Unsupported)
  {
    hide NodeKey, Extracted, NodeWith;
    var values := ParentAt(v, VALUES);
    if values.Obj? {
      var sub := ParentAt(values.fields, NodeKey(s));
      if sub.Obj? {
        ExtractsNode(client, sub.fields, time, None, s, x);
      } else {
        NoNode(client, sub, time, None, if s.field.Some? then s.field.value else [], x);
      }
    }
  }

  // ---------------------------------------------------------------- the view

  function ValueAt(client: Client, puts: seq<Put>, s: Slot): Json
    requires AllSendable(client, puts) && Latest(client, puts, s).Some?
  {
    var v := JsonOf(client, Latest(client, puts, s).value);
    if v.Ok? then v.value else Null
  }

  function TimeAt(client: Client, puts: seq<Put>, s: Slot): Json
    requires AllSendable(client, puts) && Latest(client, puts, s).Some?
  {
    Str(client.iso(Latest(client, puts, s).value.time))
  }

  ghost predicate Wrote(client: Client, puts: seq<Put>, ws: set<Slot>)
    requires AllSendable(client, puts)
  {
    forall s :: s in ws ==> WasPut(client, puts, s)
  }

  /** Slots of one value: the value itself, or fields of it. */
  predicate SameNode(s: Slot, r: Slot) {
    s.writer == r.writer && s.field.None? == r.field.None?
  }

  ghost predicate ShowsSlot(client: Client, puts: seq<Put>, s: Slot, v: Json)
    requires AllSendable(client, puts) && WasPut(client, puts, s)
  {
    if s.field.None? then v == ValueAt(client, puts, s)
    else v.Obj? && s.field.value in v.fields && v.fields[s.field.value] == ValueAt(client, puts, s)
  }

  /** A node shows the value of a slot, or of all fields beside it and no others, and the time of one of them. */
  ghost predicate ShowsNode(client: Client, puts: seq<Put>, ws: set<Slot>, s: Slot, v: Fields)
    requires AllSendable(client, puts) && Wrote(client, puts, ws)
  {
    && TIMESTAMP in v && VALUE in v
    && (exists r :: r in ws && SameNode(r, s) && v[TIMESTAMP] == TimeAt(client, puts, r))
    && (forall r :: r in ws && SameNode(r, s) ==> ShowsSlot(client, puts, r, v[VALUE]))
    && (s.field.Some? ==> v[VALUE].Obj? && forall f :: f in v[VALUE].fields ==> Slot(s.writer, Some(f)) in ws)
  }

  predicate IsFirstOf(puts: seq<Put>, s: Slot, path: seq<Text>) {
    s.writer.path == path && IsFirst(puts, s.writer)
  }

  predicate IsOther(puts: seq<Put>, s: Slot, path: seq<Text>) {
    s.writer.path == path && !IsFirst(puts, s.writer)
  }

  /** The value, the source and the time of the first source, if it is among the slots, and nothing in their place else. */
  ghost predicate ShowsFirst(client: Client, puts: seq<Put>, ws: set<Slot>, path: seq<Text>, v: Fields)
    requires AllSendable(client, puts) && Wrote(client, puts, ws)
  {
    && (forall s :: s in ws && IsFirstOf(puts, s, path) ==>
          ShowsNode(client, puts, ws, s, v) && SOURCE_REF in v && v[SOURCE_REF] == Str(Joined(s.writer.source)))
    && ((forall s :: s in ws ==> !IsFirstOf(puts, s, path)) ==>
          TIMESTAMP !in v && SOURCE_REF !in v && VALUE !in v)
  }

  /** Exactly the other sources, each with its time and value. */
  ghost predicate Nodes(client: Client, puts: seq<Put>, ws: set<Slot>, path: seq<Text>, values: Fields)
    requires AllSendable(client, puts) && Wrote(client, puts, ws)
  {
    && (forall s :: s in ws && IsOther(puts, s, path) ==>
          && NodeKey(s) in values && values[NodeKey(s)].Obj?
          && values[NodeKey(s)].fields.Keys == {TIMESTAMP, VALUE}
          && ShowsNode(client, puts, ws, s, values[NodeKey(s)].fields))
    && forall k :: k in values ==> exists s :: s in ws && IsOther(puts, s, path) && k == NodeKey(s)
  }

  /** They stand under `values`, which is there only for them. */
  ghost predicate ShowsOthers(client: Client, puts: seq<Put>, ws: set<Slot>, path: seq<Text>, v: Fields)
    requires AllSendable(client, puts) && Wrote(client, puts, ws)
  {
    && (VALUES in v <==> exists s :: s in ws && IsOther(puts, s, path))
    && (VALUES in v ==> v[VALUES].Obj?)
    && (VALUES in v ==> Nodes(client, puts, ws, path, v[VALUES].fields))
  }

  ghost predicate Shows(client: Client, puts: seq<Put>, ws: set<Slot>, path: seq<Text>, v: Json)
    requires AllSendable(client, puts) && Wrote(client, puts, ws)
  {
    && v.Obj? && v.fields.Keys <= {TIMESTAMP, SOURCE_REF, VALUE, VALUES}
    && ShowsFirst(client, puts, ws, path, v.fields) && ShowsOthers(client, puts, ws, path, v.fields)
  }

  /** A key for every path that was written, showing its sources; no other keys. */
  ghost predicate ShowsAll(client: Client, puts: seq<Put>, ws: set<Slot>, m: Fields)
    requires AllSendable(client, puts) && Wrote(client, puts, ws)
  {
    && (forall s :: s in ws ==> Joined(s.writer.path) in m && Shows(client, puts, ws, s.writer.path, m[Joined(s.writer.path)]))
    && forall k :: k in m ==> exists s :: s in ws && k == Joined(s.writer.path)
  }

  /** The first source of a path sends scalars only, or objects only. */
  ghost predicate OneKind(client: Client, puts: seq<Put>)
    requires AllSendable(client, puts)
  {
    forall s, r :: WasPut(client, puts, s) && WasPut(client, puts, r) && s.writer == r.writer && IsFirst(puts, s.writer) ==>
      SameNode(s, r)
  }

  // ---------------------------------------------------------------- the view grows

  /** A node that shows nothing yet, or the slots beside the new one, shows the new one as well. */
  lemma NodeGrows(client: Client, puts: seq<Put>, ws: set<Slot>, s: Slot, v: Fields)
    requires AllSendable(client, puts) && Wrote(client, puts, ws) && WasPut(client, puts, s)
    requires ((forall r :: r in ws ==> !SameNode(r, s)) && VALUE !in v) || ShowsNode(client, puts, ws, s, v)
    ensures Wrote(client, puts, ws + {s})
    ensures ShowsNode(client, puts, ws + {s}, s, NodeWith(v, s, TimeAt(client, puts, s), ValueAt(client, puts, s)))
  {
    Words();
    hide Latest, AllSendable, TimeAt, ValueAt, IsSlot;
    var after := NodeWith(v, s, TimeAt(client, puts, s), ValueAt(client, puts, s));
    assert s in ws + {s} && SameNode(s, s);
    forall r | r in ws + {s} && SameNode(r, s)
      ensures ShowsSlot(client, puts, r, after[VALUE])
    {
      if r != s && s.field.Some? {
        assert ShowsSlot(client, puts, r, v[VALUE]);
      }
    }
  }

  lemma NodeStays(client: Client, puts: seq<Put>, ws: set<Slot>, s: Slot, r: Slot, v: Fields, after: Fields)
    requires AllSendable(client, puts) && Wrote(client, puts, ws) && WasPut(client, puts, s)
    requires ShowsNode(client, puts, ws, r, v) && !SameNode(r, s)
    requires SameAt(v, after, TIMESTAMP) && SameAt(v, after, VALUE)
    ensures Wrote(client, puts, ws + {s}) && ShowsNode(client, puts, ws + {s}, r, after)
  {
    hide Latest, AllSendable, TimeAt, ValueAt, IsSlot, ShowsSlot;
    var q :| q in ws && SameNode(q, r) && v[TIMESTAMP] == TimeAt(client, puts, q);
    assert q in ws + {s};
  }

  predicate SameAt(v: Fields, after: Fields, k: Text) {
    (k in after <==> k in v) && (k in v ==> after[k] == v[k])
  }

  lemma NodeOfEither(client: Client, puts: seq<Put>, ws: set<Slot>, s: Slot, r: Slot, v: Fields)
    requires AllSendable(client, puts) && Wrote(client, puts, ws) && SameNode(s, r) && ShowsNode(client, puts, ws, s, v)
    ensures ShowsNode(client, puts, ws, r, v)
  {
    hide Latest, AllSendable, TimeAt, ValueAt, IsSlot, ShowsSlot;
    var q :| q in ws && SameNode(q, s) && v[TIMESTAMP] == TimeAt(client, puts, q);
    assert SameNode(q, r);
  }

  lemma FirstIsOne(puts: seq<Put>, w: Writer, u: Writer)
    requires w.path == u.path && IsFirst(puts, w) && IsFirst(puts, u)
    ensures w == u
  {
  }

  lemma FirstGrows(client: Client, puts: seq<Put>, ws: set<Slot>, s: Slot, v: Fields)
    requires AllSendable(client, puts) && Wrote(client, puts, ws) && WasPut(client, puts, s) && OneKind(client, puts)
    requires ShowsFirst(client, puts, ws, s.writer.path, v) && IsFirst(puts, s.writer)
    ensures Wrote(client, puts, ws + {s}) && TakesField(v, s)
    ensures ShowsFirst(client, puts, ws + {s}, s.writer.path,
              LoadedInto(v, s, true, TimeAt(client, puts, s), ValueAt(client, puts, s)))
  {
    Words();
    hide Latest, AllSendable, TimeAt, ValueAt, IsSlot, ShowsNode, Joined, NodeWith;
    var path := s.writer.path;
    forall r | r in ws + {s} && IsFirstOf(puts, r, path)
      ensures SameNode(r, s)
    {
      FirstIsOne(puts, s.writer, r.writer);
      assert WasPut(client, puts, r);
    }
    hide OneKind, IsFirst;
    var sourced := v[SOURCE_REF := Str(Joined(s.writer.source))];
    BeforeNode(client, puts, ws, s, v, sourced);
    NodeGrows(client, puts, ws, s, sourced);
    var after := NodeWith(sourced, s, TimeAt(client, puts, s), ValueAt(client, puts, s));
    forall r | r in ws + {s} && IsFirstOf(puts, r, path)
      ensures ShowsNode(client, puts, ws + {s}, r, after)
    {
      NodeOfEither(client, puts, ws + {s}, s, r, after);
    }
    KeepsSource(sourced, s, TimeAt(client, puts, s), ValueAt(client, puts, s));
    assert s in ws + {s} && IsFirstOf(puts, s, path);
  }

  lemma KeepsSource(v: Fields, s: Slot, time: Json, x: Json)
    requires SOURCE_REF in v
    ensures SOURCE_REF in NodeWith(v, s, time, x) && NodeWith(v, s, time, x)[SOURCE_REF] == v[SOURCE_REF]
  {
    Words();
  }

  /** What the node of a path shows before a slot of its first source is loaded. */
  lemma BeforeNode(client: Client, puts: seq<Put>, ws: set<Slot>, s: Slot, v: Fields, sourced: Fields)
    requires AllSendable(client, puts) && Wrote(client, puts, ws) && WasPut(client, puts, s)
    requires ShowsFirst(client, puts, ws, s.writer.path, v) && IsFirst(puts, s.writer)
    requires forall r :: r in ws && IsFirstOf(puts, r, s.writer.path) ==> SameNode(r, s)
    requires sourced == v[SOURCE_REF := Str(Joined(s.writer.source))]
    ensures ((forall r :: r in ws ==> !SameNode(r, s)) && VALUE !in sourced) || ShowsNode(client, puts, ws, s, sourced)
    ensures TakesField(v, s)
  {
    Words();
    hide Latest, AllSendable, TimeAt, ValueAt, IsSlot, Joined, ShowsNode, IsFirst;
    if r :| r in ws && IsFirstOf(puts, r, s.writer.path) {
      NodeOfEither(client, puts, ws, r, s, v);
      NodeSame(client, puts, ws, s, v, sourced);
    } else {
      assert forall r :: r in ws && SameNode(r, s) ==> IsFirstOf(puts, r, s.writer.path);
    }
  }

  lemma NodeSame(client: Client, puts: seq<Put>, ws: set<Slot>, s: Slot, v: Fields, after: Fields)
    requires AllSendable(client, puts) && Wrote(client, puts, ws) && ShowsNode(client, puts, ws, s, v)
    requires SameAt(v, after, TIMESTAMP) && SameAt(v, after, VALUE)
    ensures ShowsNode(client, puts, ws, s, after) && TakesField(v, s)
  {
    hide Latest, AllSendable, TimeAt, ValueAt, IsSlot, ShowsSlot;
    var q :| q in ws && SameNode(q, s) && v[TIMESTAMP] == TimeAt(client, puts, q);
    assert after[TIMESTAMP] == TimeAt(client, puts, q);
  }

  lemma FirstStaysSo(client: Client, puts: seq<Put>, ws: set<Slot>, s: Slot, path: seq<Text>, v: Fields, after: Fields)
    requires AllSendable(client, puts) && Wrote(client, puts, ws) && WasPut(client, puts, s)
    requires ShowsFirst(client, puts, ws, path, v) && !IsFirstOf(puts, s, path)
    requires SameAt(v, after, TIMESTAMP) && SameAt(v, after, SOURCE_REF) && SameAt(v, after, VALUE)
    ensures Wrote(client, puts, ws + {s}) && ShowsFirst(client, puts, ws + {s}, path, after)
  {
    hide Latest, AllSendable, TimeAt, ValueAt, IsSlot, ShowsNode, Joined, IsFirst;
    forall r | r in ws + {s} && IsFirstOf(puts, r, path)
      ensures ShowsNode(client, puts, ws + {s}, r, after)
    {
      NodeStays(client, puts, ws, s, r, v, after);
    }
    if forall r :: r in ws + {s} ==> !IsFirstOf(puts, r, path) {
      assert forall r :: r in ws ==> r in ws + {s};
    }
  }

  /** The key of a node among the others tells the source, and whether its value is an object. */
  lemma NodesDiffer(s: Slot, r: Slot)
    requires IsSlot(s) && IsSlot(r) && s.writer.path == r.writer.path && NodeKey(s) == NodeKey(r)
    ensures SameNode(s, r)
  {
    var a, b := s.writer.source, r.writer.source;
    PathOfWriter(s.writer);
    PathOfWriter(r.writer);
    if s.field.None? && r.field.None? {
      SourcesDiffer(a, b);
    } else if s.field.Some? && r.field.Some? {
      assert Joined(a) == NodeKey(s)[..|NodeKey(s)| - |DOT_VALUE|] == Joined(b);
      SourcesDiffer(a, b);
    } else if s.field.None? {
      SourceEndsInValue(a, b);
    } else {
      SourceEndsInValue(b, a);
    }
  }

  lemma SourceEndsInValue(a: seq<Text>, b: seq<Text>)
    requires IsPath(a) && IsPath(b) && Joined(a) == Joined(b) + DOT_VALUE
    ensures !FreeOf(a, VALUE, 1)
  {
    JoinedAppends(b, [VALUE]);
    assert Joined([VALUE]) == VALUE && IsSegment(VALUE);
    Regrouped(Joined(b), [DOT], VALUE);
    SourcesDiffer(a, b + [VALUE]);
    assert a[|b|] == VALUE;
  }

  lemma OthersGrow(client: Client, puts: seq<Put>, ws: set<Slot>, s: Slot, v: Fields)
    requires AllSendable(client, puts) && Wrote(client, puts, ws) && WasPut(client, puts, s)
    requires ShowsOthers(client, puts, ws, s.writer.path, v) && !IsFirst(puts, s.writer)
    ensures Wrote(client, puts, ws + {s}) && HasRoom(Obj(v), s, false)
    ensures ShowsOthers(client, puts, ws + {s}, s.writer.path,
              LoadedInto(v, s, false, TimeAt(client, puts, s), ValueAt(client, puts, s)))
  {
    hide Latest, AllSendable, TimeAt, ValueAt, IsSlot, IsFirst, Nodes, NodeKey, NodeWith, TakesField;
    var path := s.writer.path;
    if VALUES !in v {
      NoNodes(client, puts, ws, path);
    }
    NodesGrow(client, puts, ws, s, FieldsAt(v, VALUES));
    assert s in ws + {s} && IsOther(puts, s, path);
  }

  lemma NoNodes(client: Client, puts: seq<Put>, ws: set<Slot>, path: seq<Text>)
    requires AllSendable(client, puts) && Wrote(client, puts, ws) && forall s :: s in ws ==> !IsOther(puts, s, path)
    ensures Nodes(client, puts, ws, path, map[])
  {
  }

  lemma NodesGrow(client: Client, puts: seq<Put>, ws: set<Slot>, s: Slot, values: Fields)
    requires AllSendable(client, puts) && Wrote(client, puts, ws) && WasPut(client, puts, s)
    requires Nodes(client, puts, ws, s.writer.path, values) && !IsFirst(puts, s.writer)
    ensures Wrote(client, puts, ws + {s})
    ensures NodeKey(s) in values ==> values[NodeKey(s)].Obj? && TakesField(values[NodeKey(s)].fields, s)
    ensures Nodes(client, puts, ws + {s}, s.writer.path,
              values[NodeKey(s) := Obj(NodeWith(FieldsAt(values, NodeKey(s)), s, TimeAt(client, puts, s), ValueAt(client, puts, s)))])
  {
    hide Latest, AllSendable, TimeAt, ValueAt, IsSlot, IsFirst, ShowsNode, NodeKey, NodeWith;
    var sub := FieldsAt(values, NodeKey(s));
    var node := NodeWith(sub, s, TimeAt(client, puts, s), ValueAt(client, puts, s));
    var values' := values[NodeKey(s) := Obj(node)];
    BeforeOther(client, puts, ws, s, values);
    NodeGrows(client, puts, ws, s, sub);
    OnlyTwo(sub, s, TimeAt(client, puts, s), ValueAt(client, puts, s));
    forall r | r in ws + {s} && IsOther(puts, r, s.writer.path)
      ensures NodeKey(r) in values' && values'[NodeKey(r)].Obj? && values'[NodeKey(r)].fields.Keys == {TIMESTAMP, VALUE}
      ensures ShowsNode(client, puts, ws + {s}, r, values'[NodeKey(r)].fields)
    {
      OtherShown(client, puts, ws, s, r, values, node);
    }
    assert IsOther(puts, s, s.writer.path) && s in ws + {s};
    forall k | k in values'
      ensures exists r :: r in ws + {s} && IsOther(puts, r, s.writer.path) && k == NodeKey(r)
    {
      if k != NodeKey(s) {
        var r :| r in ws && IsOther(puts, r, s.writer.path) && k == NodeKey(r);
        assert r in ws + {s};
      }
    }
  }

  lemma OnlyTwo(v: Fields, s: Slot, time: Json, x: Json)
    requires v.Keys <= {TIMESTAMP, VALUE}
    ensures NodeWith(v, s, time, x).Keys == {TIMESTAMP, VALUE}
  {
  }

  /** What stands at the node of a slot among the others before it is loaded. */
  lemma BeforeOther(client: Client, puts: seq<Put>, ws: set<Slot>, s: Slot, values: Fields)
    requires AllSendable(client, puts) && Wrote(client, puts, ws) && WasPut(client, puts, s)
    requires Nodes(client, puts, ws, s.writer.path, values) && !IsFirst(puts, s.writer)
    ensures var sub := FieldsAt(values, NodeKey(s));
            && (((forall r :: r in ws ==> !SameNode(r, s)) && VALUE !in sub) || ShowsNode(client, puts, ws, s, sub))
            && sub.Keys <= {TIMESTAMP, VALUE}
            && (NodeKey(s) in values ==> values[NodeKey(s)].Obj? && TakesField(values[NodeKey(s)].fields, s))
  {
    hide Latest, AllSendable, TimeAt, ValueAt, IsSlot, IsFirst, ShowsSlot;
    forall r | r in ws && SameNode(r, s)
      ensures IsOther(puts, r, s.writer.path) && NodeKey(r) == NodeKey(s)
    {
    }
    if NodeKey(s) in values {
      var r :| r in ws && IsOther(puts, r, s.writer.path) && NodeKey(s) == NodeKey(r);
      NodesDiffer(s, r);
      NodeOfEither(client, puts, ws, r, s, values[NodeKey(s)].fields);
    }
  }

  lemma OtherShown(client: Client, puts: seq<Put>, ws: set<Slot>, s: Slot, r: Slot, values: Fields, node: Fields)
    requires AllSendable(client, puts) && Wrote(client, puts, ws) && WasPut(client, puts, s) && Wrote(client, puts, ws + {s})
    requires Nodes(client, puts, ws, s.writer.path, values) && node.Keys == {TIMESTAMP, VALUE}
    requires ShowsNode(client, puts, ws + {s}, s, node)
    requires r in ws + {s} && IsOther(puts, r, s.writer.path)
    ensures var values' := values[NodeKey(s) := Obj(node)];
            && NodeKey(r) in values' && values'[NodeKey(r)].Obj? && values'[NodeKey(r)].fields.Keys == {TIMESTAMP, VALUE}
            && ShowsNode(client, puts, ws + {s}, r, values'[NodeKey(r)].fields)
  {
    hide Latest, AllSendable, TimeAt, ValueAt, IsSlot, IsFirst, ShowsNode;
    if SameNode(s, r) {
      NodeOfEither(client, puts, ws + {s}, s, r, node);
    } else {
      assert r in ws;
      if NodeKey(s) == NodeKey(r) {
        NodesDiffer(s, r);
      }
      var v := values[NodeKey(r)].fields;
      NodeStays(client, puts, ws, s, r, v, v);
    }
  }

  lemma OthersStaySo(client: Client, puts: seq<Put>, ws: set<Slot>, s: Slot, path: seq<Text>, v: Fields, after: Fields)
    requires AllSendable(client, puts) && Wrote(client, puts, ws) && WasPut(client, puts, s)
    requires ShowsOthers(client, puts, ws, path, v) && !IsOther(puts, s, path) && SameAt(v, after, VALUES)
    ensures Wrote(client, puts, ws + {s}) && ShowsOthers(client, puts, ws + {s}, path, after)
  {
    hide Latest, AllSendable, TimeAt, ValueAt, IsSlot, IsFirst, ShowsNode, NodeKey;
    if VALUES in v {
      var values := v[VALUES].fields;
      forall r | r in ws + {s} && IsOther(puts, r, path)
        ensures ShowsNode(client, puts, ws + {s}, r, values[NodeKey(r)].fields)
      {
        NodeStays(client, puts, ws, s, r, values[NodeKey(r)].fields, values[NodeKey(r)].fields);
      }
      assert forall r :: r in ws ==> r in ws + {s};
    }
  }

  // ---------------------------------------------------------------- loading keeps the view

  lemma LoadedIntoKeeps(v: Fields, s: Slot, primary: bool, time: Json, x: Json)
    ensures var after := LoadedInto(v, s, primary, time, x);
            && (primary ==> SameAt(v, after, VALUES))
            && (!primary ==> SameAt(v, after, TIMESTAMP) && SameAt(v, after, SOURCE_REF) && SameAt(v, after, VALUE))
            && (v.Keys <= {TIMESTAMP, SOURCE_REF, VALUE, VALUES} ==> after.Keys <= {TIMESTAMP, SOURCE_REF, VALUE, VALUES})
  {
    Words();
    hide WithSlot, NodeKey, Joined, FieldsAt;
  }

  /** Loading a slot adds it to what the node of its path shows. */
  lemma ShowsGrows(client: Client, puts: seq<Put>, ws: set<Slot>, s: Slot, v: Json)
    requires AllSendable(client, puts) && Wrote(client, puts, ws) && WasPut(client, puts, s) && OneKind(client, puts)
    requires Shows(client, puts, ws, s.writer.path, v)
    ensures Wrote(client, puts, ws + {s}) && HasRoom(v, s, IsFirst(puts, s.writer))
    ensures Shows(client, puts, ws + {s}, s.writer.path,
              Obj(LoadedInto(v.fields, s, IsFirst(puts, s.writer), TimeAt(client, puts, s), ValueAt(client, puts, s))))
  {
    hide Latest, AllSendable, TimeAt, ValueAt, IsSlot, OneKind, ShowsFirst, ShowsOthers, LoadedInto, IsFirst;
    var primary := IsFirst(puts, s.writer);
    var after := LoadedInto(v.fields, s, primary, TimeAt(client, puts, s), ValueAt(client, puts, s));
    LoadedIntoKeeps(v.fields, s, primary, TimeAt(client, puts, s), ValueAt(client, puts, s));
    if primary {
      FirstGrows(client, puts, ws, s, v.fields);
      OthersStaySo(client, puts, ws, s, s.writer.path, v.fields, after);
    } else {
      OthersGrow(client, puts, ws, s, v.fields);
      FirstStaysSo(client, puts, ws, s, s.writer.path, v.fields, after);
    }
  }

  /** Elsewhere nothing changes. */
  lemma ElsewhereSame(client: Client, puts: seq<Put>, ws: set<Slot>, s: Slot, path: seq<Text>, v: Json)
    requires AllSendable(client, puts) && Wrote(client, puts, ws) && WasPut(client, puts, s)
    requires path != s.writer.path && Shows(client, puts, ws, path, v)
    ensures Wrote(client, puts, ws + {s}) && Shows(client, puts, ws + {s}, path, v)
  {
    hide Latest, AllSendable, TimeAt, ValueAt, IsSlot, ShowsFirst, ShowsOthers, IsFirst;
    FirstStaysSo(client, puts, ws, s, path, v.fields, v.fields);
    OthersStaySo(client, puts, ws, s, path, v.fields, v.fields);
  }

  /** An empty node shows no slots. */
  lemma ShowsNothing(client: Client, puts: seq<Put>, ws: set<Slot>, path: seq<Text>)
    requires AllSendable(client, puts) && Wrote(client, puts, ws) && forall s :: s in ws ==> s.writer.path != path
    ensures Shows(client, puts, ws, path, Obj(map[]))
  {
  }

  lemma PathsDiffer(u: Slot, s: Slot)
    requires IsSlot(u) && IsSlot(s) && u.writer.path != s.writer.path
    ensures Joined(u.writer.path) != Joined(s.writer.path)
  {
    SourcesDiffer(u.writer.path, s.writer.path);
  }

  lemma ParentShows(client: Client, puts: seq<Put>, ws: set<Slot>, m: Fields, s: Slot)
    requires AllSendable(client, puts) && Wrote(client, puts, ws) && IsSlot(s) && ShowsAll(client, puts, ws, m)
    ensures Shows(client, puts, ws, s.writer.path, ParentAt(m, Joined(s.writer.path)))
  {
    hide Joined, Latest, AllSendable, IsFirst, IsSlot, Shows;
    if Joined(s.writer.path) in m {
      var u :| u in ws && Joined(s.writer.path) == Joined(u.writer.path);
      assert WasPut(client, puts, u);
      if u.writer.path != s.writer.path {
        PathsDiffer(u, s);
      }
    } else {
      assert forall u :: u in ws ==> u.writer.path != s.writer.path;
      ShowsNothing(client, puts, ws, s.writer.path);
    }
  }

  /** Loading the series of a slot adds the slot to the view and leaves the other paths alone. */
  lemma LoadGrows(client: Client, puts: seq<Put>, ws: set<Slot>, m: Fields, s: Slot)
    requires AllSendable(client, puts) && Wrote(client, puts, ws) && WasPut(client, puts, s) && OneKind(client, puts)
    requires ShowsAll(client, puts, ws, m)
    ensures Wrote(client, puts, ws + {s})
    ensures var after := LoadSeries(client, m, SeriesIn(puts, s), Latest(client, puts, s).value);
            after.Ok? && ShowsAll(client, puts, ws + {s}, after.value)
  {
    hide Joined, Latest, AllSendable, IsFirst, IsSlot, Shows, LoadSeries, SeriesFor, LoadedInto, HasRoom, OneKind, IsReadable, JsonOf;
    var primary, path := IsFirst(puts, s.writer), Joined(s.writer.path);
    var parent := ParentAt(m, path);
    ParentShows(client, puts, ws, m, s);
    ShowsGrows(client, puts, ws, s, parent);
    LatestReadable(client, puts, s);
    LoadsSlot(client, m, s, primary, Latest(client, puts, s).value);
    IsObject(client, puts, ws, s.writer.path, parent);
    var after := m[path := Obj(LoadedInto(parent.fields, s, primary, TimeAt(client, puts, s), ValueAt(client, puts, s)))];
    forall u | u in ws + {s}
      ensures Joined(u.writer.path) in after && Shows(client, puts, ws + {s}, u.writer.path, after[Joined(u.writer.path)])
    {
      if u.writer.path != s.writer.path {
        assert WasPut(client, puts, u);
        PathsDiffer(u, s);
        ElsewhereSame(client, puts, ws, s, u.writer.path, m[Joined(u.writer.path)]);
      }
    }
    forall k | k in after
      ensures exists u :: u in ws + {s} && k == Joined(u.writer.path)
    {
      if k == path {
        assert s in ws + {s};
      } else {
        var u :| u in ws && k == Joined(u.writer.path);
        assert u in ws + {s};
      }
    }
  }

  lemma IsObject(client: Client, puts: seq<Put>, ws: set<Slot>, path: seq<Text>, v: Json)
    requires AllSendable(client, puts) && Wrote(client, puts, ws) && Shows(client, puts, ws, path, v)
    ensures v.Obj?
  {
  }

  // ---------------------------------------------------------------- loading all series

  /** The slots whose series are in the order. */
  ghost predicate LoadedSlots(client: Client, puts: seq<Put>, order: seq<Series>, ws: set<Slot>)
    requires AllSendable(client, puts) && Wrote(client, puts, ws)
  {
    && (forall s :: s in ws ==> SeriesIn(puts, s) in order)
    && forall r :: r in order ==> exists s :: s in ws && r == SeriesIn(puts, s)
  }

  lemma NoneLoaded(client: Client, puts: seq<Put>)
    requires AllSendable(client, puts)
    ensures Wrote(client, puts, {}) && LoadedSlots(client, puts, [], {}) && ShowsAll(client, puts, {}, map[])
  {
  }

  lemma OneMoreLoaded(client: Client, puts: seq<Put>, order: seq<Series>, ws: set<Slot>, s: Slot)
    requires AllSendable(client, puts) && Wrote(client, puts, ws) && Wrote(client, puts, ws + {s}) && IsSlot(s)
    requires order != [] && LoadedSlots(client, puts, order[..|order| - 1], ws)
    requires order[|order| - 1] == SeriesIn(puts, s)
    ensures LoadedSlots(client, puts, order, ws + {s})
  {
    hide Latest, AllSendable, IsFirst, IsSlot, SeriesFor;
    var n := |order| - 1;
    assert order == order[..n] + [order[n]];
    forall r | r in order
      ensures exists u :: u in ws + {s} && r == SeriesIn(puts, u)
    {
      if r == order[n] {
        assert s in ws + {s};
      } else {
        assert r in order[..n];
        var u :| u in ws && r == SeriesIn(puts, u);
        assert u in ws + {s};
      }
    }
  }

  lemma SeriesHasSlot(client: Client, puts: seq<Put>, points: Points, r: Series) returns (s: Slot)
    requires AllSendable(client, puts) && Keeps(client, puts, points) && r in points
    ensures WasPut(client, puts, s) && r == SeriesIn(puts, s) && points[r] == Latest(client, puts, s).value
  {
    hide Latest, AllSendable, IsFirst, IsSlot, SeriesFor;
    s :| WasPut(client, puts, s) && r == SeriesIn(puts, s);
  }

  lemma {:induction false} LoadsRun(client: Client, puts: seq<Put>, points: Points,
      order: seq<Series>) returns (ws: set<Slot>)
    requires AllSendable(client, puts) && Keeps(client, puts, points) && OneKind(client, puts)
    requires forall r :: r in order ==> r in points
    ensures Wrote(client, puts, ws) && LoadedSlots(client, puts, order, ws)
    ensures LoadAll(client, map[], points, order).Ok? && ShowsAll(client, puts, ws, LoadAll(client, map[], points, order).value)
  {
    hide Joined, Latest, AllSendable, IsFirst, IsSlot, ShowsAll, LoadSeries, SeriesFor, Keeps, LoadedSlots, Wrote, OneKind;
    if order == [] {
      ws := {};
      NoneLoaded(client, puts);
    } else {
      var n := |order| - 1;
      var before := LoadsRun(client, puts, points, order[..n]);
      assert order[n] in order;
      var s := SeriesHasSlot(client, puts, points, order[n]);
      LoadGrows(client, puts, before, LoadAll(client, map[], points, order[..n]).value, s);
      ws := before + {s};
      OneMoreLoaded(client, puts, order, before, s);
    }
  }

  /** What was written. */
  ghost function Slots(puts: seq<Put>): set<Slot> {
    set i | 0 <= i < |puts| :: puts[i].slot
  }

  lemma {:induction false} LatestOfSlots(client: Client, puts: seq<Put>, s: Slot)
    requires AllSendable(client, puts)
    ensures Latest(client, puts, s).Some? <==> exists i :: 0 <= i < |puts| && puts[i].slot == s
  {
    hide Sendable, PointOf, Later;
    if puts != [] {
      var n := |puts| - 1;
      LatestOfSlots(client, puts[..n], s);
      if i :| 0 <= i < |puts| && puts[i].slot == s {
        assert i < n ==> puts[..n][i] == puts[i];
      }
      if i :| 0 <= i < |puts[..n]| && puts[..n][i].slot == s {
        assert puts[i] == puts[..n][i];
      }
    }
  }

  lemma SlotsWrote(client: Client, puts: seq<Put>)
    requires AllSendable(client, puts)
    ensures Wrote(client, puts, Slots(puts))
    ensures forall s :: s in Slots(puts) <==> WasPut(client, puts, s)
  {
    hide IsSlot, Storable, Latest;
    forall s
      ensures s in Slots(puts) <==> WasPut(client, puts, s)
    {
      LatestOfSlots(client, puts, s);
      if i :| 0 <= i < |puts| && puts[i].slot == s {
        assert Sendable(client, puts[i]);
      }
    }
  }

  lemma AllLoaded(client: Client, puts: seq<Put>, points: Points, order: seq<Series>)
    requires AllSendable(client, puts) && Keeps(client, puts, points) && OneKind(client, puts)
    requires forall r :: r in order <==> r in points
    ensures Wrote(client, puts, Slots(puts))
    ensures var loaded := LoadAll(client, map[], points, order);
            loaded.Ok? && ShowsAll(client, puts, Slots(puts), loaded.value)
  {
    hide Joined, Latest, AllSendable, IsFirst, IsSlot, Shows, LoadAll, SeriesFor, ShowsAll, OneKind;
    var ws := LoadsRun(client, puts, points, order);
    SlotsWrote(client, puts);
    forall s
      ensures s in ws <==> s in Slots(puts)
    {
      if s in Slots(puts) {
        assert WasPut(client, puts, s) && SeriesIn(puts, s) in order;
        var u :| u in ws && SeriesIn(puts, s) == SeriesIn(puts, u);
        SeriesDiffer(s, u, IsFirst(puts, s.writer), IsFirst(puts, u.writer));
      }
    }
    assert ws == Slots(puts);
  }
}
