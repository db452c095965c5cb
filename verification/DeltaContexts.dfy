/** A delta has one context: maps of several vessels do not come back. */
module DeltaContexts {
  import opened Units
  import opened JsonValues
  import opened SignalKKeys
  import opened FullFormat
  import opened DeltaFormat
  import opened DeltaRoundTrip
  import FullRoundTrip
  import ReaderSpec

  /** Every entry holds a reading of some vessel. */
  ghost predicate IsFleetMap(m: Fields) {
    forall k :: k in m ==> IsFleetEntry(k, m[k])
  }

  ghost predicate IsFleetEntry(k: Text, v: Json) {
    exists context, path, r :: IsVessel(context) && IsReading(context, k, v, path, r)
  }

  lemma FleetEntry(k: Text, v: Json) returns (context: Text, path: Text, r: Reading)
    requires IsFleetEntry(k, v)
    ensures IsVessel(context) && IsReading(context, k, v, path, r) && context + [DOT] <= k
    ensures ClassOf(k, v) == Ok(Some(Class(context, r.time, r.source, path)))
  {
    hide ClassOf, IsVessel;
    context, path, r :| IsVessel(context) && IsReading(context, k, v, path, r);
    ReadingClass(context, k, v, path, r);
  }

  lemma {:induction false} FleetGroups(keys: seq<Text>, m: Fields)
    requires (forall k :: k in keys ==> k in m) && IsFleetMap(m)
    ensures Grouped(keys, m).Ok?
  {
    hide ClassOf, IsFleetEntry;
    if keys != [] {
      var n := |keys| - 1;
      FleetGroups(keys[..n], m);
      assert keys[n] in keys;
      var context, path, r := FleetEntry(keys[n], m[keys[n]]);
    }
  }

  // ---------------------------------------------------------------- where parsed entries go

  /** Every key but those of `temp` is below the context. */
  ghost predicate AllBelow(temp: Fields, after: Fields, context: Text) {
    forall k :: k in after && k !in temp ==> context + [DOT] <= k
  }

  lemma ParsedBelow(update: Fields, item: Json, context: Text, now: Text)
    ensures var e := Parsed(update, item, context, now);
            e.Ok? && e.value.Some? ==> context + [DOT] <= e.value.value.0
  {
    if item.Obj? && PATH in item.fields && AsPath(item.fields[PATH]).Some? {
      var path := AsPath(item.fields[PATH]).value;
      forall source: Text
        ensures context + [DOT] <= InContext(context, path) + DOT_VALUES_DOT + source
      {
        Regrouped(InContext(context, path), DOT_VALUES_DOT, source);
      }
    }
  }

  function AsPath(v: Json): Option<Text> {
    if ReaderSpec.AsKey(v).Ok? then Some(ReaderSpec.AsKey(v).value) else None
  }

  lemma {:induction false} PutsBelow(temp: Fields, update: Fields, items: seq<Json>, context: Text, now: Text)
    ensures var after := PutParsed(temp, update, items, context, now);
            after.Ok? ==> AllBelow(temp, after.value, context)
  {
    hide Parsed;
    if items != [] {
      var n := |items| - 1;
      PutsBelow(temp, update, items[..n], context, now);
      ParsedBelow(update, items[n], context, now);
    }
  }

  lemma {:induction false} UpdatesBelow(temp: Fields, kind: Text, elements: seq<Json>, context: Text, now: Text)
    requires kind != PUT
    ensures var after := AllParsed(temp, kind, elements, context, now);
            after.Ok? ==> AllBelow(temp, after.value, context)
  {
    hide PutParsed;
    if elements != [] {
      var n := |elements| - 1;
      UpdatesBelow(temp, kind, elements[..n], context, now);
      var before := AllParsed(temp, kind, elements[..n], context, now);
      if before.Ok? && elements[n].Obj? && VALUES in elements[n].fields && elements[n].fields[VALUES].Arr? {
        PutsBelow(before.value, elements[n].fields, elements[n].fields[VALUES].items, context, now);
      }
    }
  }

  /** What a key is below tells the vessel. */
  lemma VesselsDiffer(a: Text, b: Text, k: Text)
    requires IsVessel(a) && IsVessel(b) && a + [DOT] <= k && b + [DOT] <= k
    ensures a == b
  {
    var x :| IsSegment(x) && a == VESSELS + [DOT] + x;
    var y :| IsSegment(y) && b == VESSELS + [DOT] + y;
    NameEnds(a, x, k);
    NameEnds(b, y, k);
  }

  // ---------------------------------------------------------------- one context only

  /** The context gone to last is a vessel. */
  lemma LastIsVessel(keys: seq<Text>, m: Fields, order: seq<Update>, last: Option<Text>)
    requires Lists(keys, m) && m != map[] && IsFleetMap(m)
    requires Grouped(keys, m).Ok? && IsOrder(order, last, Grouped(keys, m).value)
    ensures last.Some? && IsVessel(last.value)
  {
    hide Lists, Grouped, IsVessel, IsOrder, NoneEmpty, Bucket, IsReading, ClassOf, IsFleetEntry;
    ListsKeys(keys, m);
    GroupingConserves(keys, m);
    var msgs := Grouped(keys, m).value;
    var k :| k in m;
    var context, path, r := FleetEntry(k, m[k]);
    BucketMembers(keys, m, Class(context, r.time, r.source, path), (k, m[k]));
    NotEmptyLast(order, last, msgs, Class(context, r.time, r.source, path));
    var c := SomeOfContext(msgs, last.value);
    var e := Bucket(msgs, c)[0];
    assert e in Bucket(msgs, c);
    BucketMembers(keys, m, c, e);
    var context', path', r' := FleetEntry(e.0, e.1);
  }

  lemma NotEmptyLast(order: seq<Update>, last: Option<Text>, msgs: ByContext, c: Class)
    requires IsOrder(order, last, msgs) && Bucket(msgs, c) != []
    ensures last.Some? && last.value in msgs
  {
    hide IsWalk, Nested;
    BucketHasPlace(msgs, c);
  }

  /** A context has an entry. */
  lemma SomeOfContext(msgs: ByContext, context: Text) returns (c: Class)
    requires NoneEmpty(msgs) && context in msgs
    ensures c.context == context && Bucket(msgs, c) != []
  {
    hide SomePaths;
    var t :| t in msgs[context];
    assert SomeSources(msgs[context][t]);
    var s :| s in msgs[context][t];
    assert SomePaths(msgs[context][t][s]);
    var p := SomePath(msgs[context][t][s]);
    c := Class(context, t, s, p);
  }

  lemma SomePath(paths: ByPath) returns (p: Text)
    requires SomePaths(paths)
    ensures p in paths && paths[p] != []
  {
    p :| p in paths;
  }

  /**
   * A map of readings of vessels comes back through `mapToUpdatesDelta` and `parseDelta`, into an empty map, exactly if they
   * are all of one vessel: the delta keeps one context, and what was of another is read back as of that one.
   */
  lemma ComesBackIffOneVessel(keys: seq<Text>, m: Fields, order: seq<Update>, last: Option<Text>, kind: Text, uuid: Text,
      now: Text)
    requires Lists(keys, m) && m != map[] && IsFleetMap(m) && (kind == UPDATES || kind == CONFIG)
    requires Grouped(keys, m).Ok? ==> IsOrder(order, last, Grouped(keys, m).value)
    ensures Grouped(keys, m).Ok?
    ensures DeltaParsed(DeltaOf(order, last, kind), map[], uuid, now) == Ok(Some(m)) <==> exists c :: IsVesselMap(c, m)
  {
    hide Lists, Grouped, IsVessel, AllParsed, IsOrder, DeltaParsed, IsReading, IsFleetEntry, IsVesselMap;
    ListsKeys(keys, m);
    FleetGroups(keys, m);
    if c :| IsVesselMap(c, m) {
      ParseUndoesGenerate(c, keys, m, order, last, kind, map[], uuid, now);
      assert map[] + m == m;
    }
    if DeltaParsed(DeltaOf(order, last, kind), map[], uuid, now) == Ok(Some(m)) {
      LastIsVessel(keys, m, order, last);
      VesselEnds(last.value);
      ContextKept(last.value, uuid);
      OneSection(kind, Arr(Updates(order)), last.value, map[], uuid, now);
      assert |PUT| == 3 && |UPDATES| == 7 && |CONFIG| == 6;
      UpdatesBelow(map[], kind, Updates(order), last.value, now);
      OfOneVessel(m, last.value);
    }
  }

  lemma OfOneVessel(m: Fields, context: Text)
    requires IsFleetMap(m) && IsVessel(context) && AllBelow(map[], m, context)
    ensures IsVesselMap(context, m)
  {
    hide IsVessel, IsReading, IsFleetEntry;
    forall k | k in m
      ensures exists path, r :: IsReading(context, k, m[k], path, r)
    {
      var own, path, r := FleetEntry(k, m[k]);
      VesselsDiffer(own, context, k);
    }
  }

  // ---------------------------------------------------------------- two vessels

  function Ship(letter: Unit): Text {
    VESSELS + [DOT] + [letter]
  }

  const SPEED: Text := [0x70]
  const SPEED_READING: Reading := FullRoundTrip.Reading.Reading([0x73], Int(1), [0x74])

  /** One reading of each of two vessels. */
  function TwoShips(): Fields {
    map[KeyFor(Ship(0x61), SPEED, SPEED_READING.source) := FullRoundTrip.ReadingEntry(SPEED_READING),
        KeyFor(Ship(0x62), SPEED, SPEED_READING.source) := FullRoundTrip.ReadingEntry(SPEED_READING)]
  }

  lemma ShipReading(letter: Unit)
    requires 0x61 <= letter <= 0x7A
    ensures IsVessel(Ship(letter))
    ensures IsReading(Ship(letter), KeyFor(Ship(letter), SPEED, SPEED_READING.source),
              FullRoundTrip.ReadingEntry(SPEED_READING), SPEED, SPEED_READING)
  {
    var source: Text := SPEED_READING.source;
    assert IsSegment([letter]);
    var t := SPEED + (DOT_VALUES_DOT + source);
    assert t[0] == SPEED[0] != DOT && DOT_VALUES_DOT[0] == DOT && DOT_VALUES_DOT <= t[1..];
    FirstAt(t, DOT_VALUES_DOT, 1);
    var key := KeyFor(Ship(letter), SPEED, source);
    assert key[|key| - 1] == 0x73 && ATTR[|ATTR| - 1] == 0x72;
  }

  lemma TwoShipsDiffer()
    ensures IsFleetMap(TwoShips()) && TwoShips() != map[] && !exists c :: IsVesselMap(c, TwoShips())
  {
    hide IsVessel, IsReading, KeyFor;
    var m, a, b := TwoShips(), Ship(0x61), Ship(0x62);
    var j, k := KeyFor(a, SPEED, SPEED_READING.source), KeyFor(b, SPEED, SPEED_READING.source);
    ShipReading(0x61);
    ShipReading(0x62);
    assert IsFleetEntry(j, m[j]) && IsFleetEntry(k, m[k]);
    assert a != b by {
      assert a[|a| - 1] == 0x61 && b[|b| - 1] == 0x62;
    }
    if c :| IsVesselMap(c, m) {
      Starts(c, m, j);
      Starts(c, m, k);
      StartsAtShip(a);
      StartsAtShip(b);
      VesselsDiffer(a, c, j);
      VesselsDiffer(b, c, k);
    }
  }

  lemma Starts(context: Text, m: Fields, k: Text)
    requires IsVesselMap(context, m) && k in m
    ensures IsVessel(context) && context + [DOT] <= k
  {
  }

  lemma StartsAtShip(context: Text)
    ensures context + [DOT] <= KeyFor(context, SPEED, SPEED_READING.source)
  {
  }

  /** Two vessels do not come back, whatever way the nested maps are gone through. */
  lemma TwoVesselsLost(keys: seq<Text>, order: seq<Update>, last: Option<Text>, uuid: Text, now: Text)
    requires Lists(keys, TwoShips())
    requires Grouped(keys, TwoShips()).Ok? ==> IsOrder(order, last, Grouped(keys, TwoShips()).value)
    ensures DeltaParsed(DeltaOf(order, last, UPDATES), map[], uuid, now) != Ok(Some(TwoShips()))
  {
    hide TwoShips, IsFleetMap, IsVesselMap, DeltaParsed, IsOrder, Grouped, Lists;
    TwoShipsDiffer();
    ComesBackIffOneVessel(keys, TwoShips(), order, last, UPDATES, uuid, now);
  }
}
