/** `parseDelta` undoes `mapToUpdatesDelta`. */
module DeltaRoundTrip {
  import opened Units
  import opened JsonValues
  import opened ArrayMerging
  import opened SignalKKeys
  import opened FullFormat
  import opened DeltaFormat
  import FullRoundTrip

  type Reading = FullRoundTrip.Reading

  // ---------------------------------------------------------------- maps of one vessel

  ghost predicate IsVessel(context: Text) {
    exists name :: IsSegment(name) && context == VESSELS + [DOT] + name
  }

  /** The key ends in a mark and a source, and the mark is the first one behind the context. */
  predicate MarksPath(path: Text, source: Text) {
    path != [] && IndexOf(path + (DOT_VALUES_DOT + source), DOT_VALUES_DOT) == |path|
  }

  function KeyFor(context: Text, path: Text, source: Text): Text {
    context + [DOT] + (path + (DOT_VALUES_DOT + source))
  }

  /** An entry holds the value of a reading, its time, and the source named in the key. */
  ghost predicate IsReading(context: Text, key: Text, v: Json, path: Text, r: Reading) {
    && MarksPath(path, r.source) && key == KeyFor(context, path, r.source) && v == FullRoundTrip.ReadingEntry(r)
    && !EndsWith(key, ATTR)
  }

  ghost predicate IsVesselMap(context: Text, m: Fields) {
    IsVessel(context) && forall k :: k in m ==> exists path, r :: IsReading(context, k, m[k], path, r)
  }

  // ---------------------------------------------------------------- where the entries are filed

  lemma {:induction false} TrimKeeps(t: Text, n: nat)
    requires 1 <= n <= |t| && t[0] > SPACE && t[n - 1] > SPACE
    ensures t[..n] <= Trim(t)
    decreases |t|
  {
    if t[|t| - 1] <= SPACE {
      var s := t[..|t| - 1];
      assert s[..n] == t[..n];
      TrimKeeps(s, n);
    }
  }

  lemma VesselStarts(context: Text, rest: Text)
    requires IsVessel(context)
    ensures context != [] && (context + [DOT] + rest)[0] == VESSELS[0] > SPACE
  {
  }

  lemma ContextFound(context: Text, rest: Text)
    requires IsVessel(context)
    ensures GetContext(context + [DOT] + rest) == context
  {
    hide Trim, IndexOf, UpToDot, Blank, IsVessel;
    var key := context + [DOT] + rest;
    var n := |context| + 1;
    VesselStarts(context, rest);
    assert key[n - 1] == DOT;
    TrimKeeps(key, n);
    assert key[..n] == context + [DOT];
    ContextOfTrimmed(context, Trim(key));
  }

  lemma ContextOfTrimmed(context: Text, p: Text)
    requires IsVessel(context) && context + [DOT] <= p
    ensures !Blank(p) && !(RESOURCES + [DOT] <= p) && !(SOURCES + [DOT] <= p) && !(CONFIG + [DOT] <= p)
    ensures p != RESOURCES && p != SOURCES && p != CONFIG && p != VESSELS && VESSELS + [DOT] <= p
    ensures UpToDot(p, IndexOf(p, VESSELS) + |VESSELS| + 1) == context
  {
    hide UpToDot, IndexOf, Blank;
    var name :| IsSegment(name) && context == VESSELS + [DOT] + name;
    assert |VESSELS| == 7 && |context| == 8 + |name|;
    assert p[..|context|] == context && VESSELS + [DOT] <= context;
    StartsAsVessel(p);
    NameEnds(context, name, p);
    VesselFirst(p);
    UpToDotAt(p, 8, |name|);
  }

  lemma StartsAsVessel(p: Text)
    requires VESSELS + [DOT] <= p
    ensures !Blank(p) && !(RESOURCES + [DOT] <= p) && !(SOURCES + [DOT] <= p) && !(CONFIG + [DOT] <= p)
    ensures p != RESOURCES && p != SOURCES && p != CONFIG && p != VESSELS
  {
    assert p[0] == (VESSELS + [DOT])[0] == VESSELS[0];
    assert p[0] != RESOURCES[0] && p[0] != SOURCES[0] && p[0] != CONFIG[0];
    assert (RESOURCES + [DOT])[0] == RESOURCES[0] && (SOURCES + [DOT])[0] == SOURCES[0] && (CONFIG + [DOT])[0] == CONFIG[0];
    assert |VESSELS| == 7;
  }

  lemma VesselFirst(p: Text)
    requires VESSELS + [DOT] <= p
    ensures IndexOf(p, VESSELS) == 0
  {
    assert VESSELS <= p;
  }

  lemma UpToDotAt(p: Text, from: nat, n: nat)
    requires from <= |p| && n <= |p| - from && IndexOf(p[from..], [DOT]) == n
    ensures UpToDot(p, from) == p[..from + n]
  {
  }

  lemma NameEnds(context: Text, name: Text, p: Text)
    requires IsSegment(name) && context == VESSELS + [DOT] + name && context + [DOT] <= p
    ensures |p| >= 8 && IndexOf(p[8..], [DOT]) == |name| && p[..8 + |name|] == context
  {
    var t := context + [DOT];
    assert |context| == 8 + |name|;
    forall i | 0 <= i <= |name|
      ensures p[8..][i] == (name + [DOT])[i]
    {
      assert p[8 + i] == t[8 + i];
    }
    var q := p[8..];
    assert q[|name|] == DOT;
    forall j | 0 <= j < |name|
      ensures !([DOT] <= q[j..])
    {
      assert q[j..][0] == name[j];
    }
    assert q[|name|..][0] == DOT;
    FirstAt(q, [DOT], |name|);
  }

  lemma PathFound(context: Text, path: Text, source: Text)
    requires MarksPath(path, source)
    ensures PathIn(KeyFor(context, path, source), context) == path
  {
    var rest := path + (DOT_VALUES_DOT + source);
    var key := KeyFor(context, path, source);
    assert context + [DOT] <= key;
    assert key[|context + [DOT]|..] == rest;
    assert rest[..|path|] == path;
  }

  lemma VesselIsNoSource(context: Text, rest: Text)
    requires IsVessel(context)
    ensures !(SOURCES <= context + [DOT] + rest)
  {
    assert (context + [DOT] + rest)[0] == VESSELS[0];
  }

  lemma ReadingClass(context: Text, key: Text, v: Json, path: Text, r: Reading)
    requires IsVessel(context) && IsReading(context, key, v, path, r)
    ensures ClassOf(key, v) == Ok(Some(Class(context, r.time, r.source, path)))
    ensures PathIn(key, context) == path
  {
    hide GetContext, PathIn, EndsWith, IsVessel;
    var rest := path + (DOT_VALUES_DOT + r.source);
    ContextFound(context, rest);
    PathFound(context, path, r.source);
    VesselIsNoSource(context, rest);
    assert MarkOf(v, TIMESTAMP) == Ok(r.time) && MarkOf(v, SOURCE_REF) == Ok(r.source);
  }

  /** Every entry of the map of a vessel has a class. */
  lemma EntryIsReading(context: Text, m: Fields, k: Text) returns (path: Text, r: Reading)
    requires IsVesselMap(context, m) && k in m
    ensures IsReading(context, k, m[k], path, r)
    ensures ClassOf(k, m[k]) == Ok(Some(Class(context, r.time, r.source, path)))
  {
    hide ClassOf, IsReading, IsVessel;
    path, r :| IsReading(context, k, m[k], path, r);
    ReadingClass(context, k, m[k], path, r);
  }

  lemma {:induction false} GroupingSucceeds(context: Text, keys: seq<Text>, m: Fields)
    requires (forall k :: k in keys ==> k in m) && IsVesselMap(context, m)
    ensures Grouped(keys, m).Ok?
  {
    hide ClassOf, IsReading, IsVesselMap;
    if keys != [] {
      var n := |keys| - 1;
      GroupingSucceeds(context, keys[..n], m);
      assert keys[n] in keys;
      var path, r := EntryIsReading(context, m, keys[n]);
    }
  }

  // ---------------------------------------------------------------- the order of the maps

  /** A list that is gone through is the list of its class. */
  lemma ListIsBucket(u: Update, msgs: ByContext, j: nat)
    requires GoesThrough(u, msgs) && j < |u.lists|
    ensures Bucket(msgs, Class(u.context, u.time, u.source, u.lists[j].0)) == u.lists[j].1
  {
  }

  lemma BucketHasPlace(msgs: ByContext, c: Class)
    requires Bucket(msgs, c) != []
    ensures HasPlace(msgs, (c.context, c.time, c.source)) && c.path in msgs[c.context][c.time][c.source]
    ensures Bucket(msgs, c) == msgs[c.context][c.time][c.source][c.path]
  {
  }

  /** Every list of the grouping is gone through. */
  lemma ListReached(order: seq<Update>, last: Option<Text>, msgs: ByContext, c: Class) returns (i: nat, j: nat)
    requires IsOrder(order, last, msgs) && Bucket(msgs, c) != []
    ensures i < |order| && j < |order[i].lists| && order[i].lists[j].1 == Bucket(msgs, c)
  {
    hide Bucket, Nested, TimePlaces;
    BucketHasPlace(msgs, c);
    var p := (c.context, c.time, c.source);
    assert p in AllPlaces(msgs);
    i :| 0 <= i < |order| && PlaceOf(order[i]) == p;
    assert GoesThrough(order[i], msgs);
    j :| 0 <= j < |order[i].lists| && order[i].lists[j].0 == c.path;
  }

  lemma {:induction false} EntriesInLists(lists: seq<(Text, seq<Entry>)>, e: Entry)
    ensures e in EntriesIn(lists) <==> exists j :: 0 <= j < |lists| && e in lists[j].1
  {
    if lists != [] {
      var n := |lists| - 1;
      EntriesInLists(lists[..n], e);
      if j :| 0 <= j < |lists| && e in lists[j].1 {
        assert j < n ==> lists[..n][j] == lists[j];
      }
      if j :| 0 <= j < |lists[..n]| && e in lists[..n][j].1 {
        assert lists[..n][j] == lists[j];
      }
    }
  }

  lemma {:induction false} EntriesInOrder(order: seq<Update>, e: Entry)
    ensures e in EntriesOf(order) <==> exists i :: 0 <= i < |order| && e in EntriesIn(order[i].lists)
  {
    hide EntriesIn;
    if order != [] {
      var n := |order| - 1;
      EntriesInOrder(order[..n], e);
      if i :| 0 <= i < |order| && e in EntriesIn(order[i].lists) {
        assert i < n ==> order[..n][i] == order[i];
      }
      if i :| 0 <= i < |order[..n]| && e in EntriesIn(order[..n][i].lists) {
        assert order[..n][i] == order[i];
      }
    }
  }

  /** An entry of the map, and one that belongs where it is. */
  ghost predicate Belongs(context: Text, m: Fields, u: Update, e: Entry) {
    && u.context == context && e.0 in m && m[e.0] == e.1
    && exists path, r :: IsReading(context, e.0, e.1, path, r) && u.time == r.time && u.source == r.source
  }

  lemma KeysDiffer(keys: seq<Text>)
    requires Ascending(keys)
    ensures forall i, j :: 0 <= i < j < |keys| ==> keys[i] != keys[j]
  {
    forall i, j | 0 <= i < j < |keys|
      ensures keys[i] != keys[j]
    {
      TextFlips(keys[i], keys[i]);
    }
  }

  lemma BucketMembers(keys: seq<Text>, m: Fields, c: Class, e: Entry)
    requires Lists(keys, m) && Grouped(keys, m).Ok?
    ensures e in Bucket(Grouped(keys, m).value, c) <==> e.0 in m && m[e.0] == e.1 && ClassOf(e.0, e.1) == Ok(Some(c))
  {
    hide ClassOf, Bucket;
    KeysDiffer(keys);
    GroupingConserves(keys, m);
    ListedMembers(keys, m, c);
  }

  lemma EntryBelongs(context: Text, keys: seq<Text>, m: Fields, u: Update, e: Entry)
    requires Lists(keys, m) && IsVesselMap(context, m) && Grouped(keys, m).Ok?
    requires GoesThrough(u, Grouped(keys, m).value) && e in EntriesIn(u.lists)
    ensures Belongs(context, m, u, e)
  {
    hide ClassOf, Bucket, IsReading, EntriesIn, Grouped, Lists, IsVesselMap, GoesThrough;
    ListsKeys(keys, m);
    EntriesInLists(u.lists, e);
    var j :| 0 <= j < |u.lists| && e in u.lists[j].1;
    ListIsBucket(u, Grouped(keys, m).value, j);
    BucketMembers(keys, m, Class(u.context, u.time, u.source, u.lists[j].0), e);
    var path, r := EntryIsReading(context, m, e.0);
  }

  /** Every entry of the map is gone through. */
  lemma EntryReached(context: Text, keys: seq<Text>, m: Fields, order: seq<Update>, last: Option<Text>, k: Text)
    requires Lists(keys, m) && IsVesselMap(context, m) && Grouped(keys, m).Ok?
    requires IsOrder(order, last, Grouped(keys, m).value)
    requires k in m
    ensures (k, m[k]) in EntriesOf(order)
  {
    hide ClassOf, Bucket, IsReading, EntriesIn, EntriesOf, Grouped, Lists, IsVesselMap, IsOrder;
    ListsKeys(keys, m);
    var e := (k, m[k]);
    var path, r := EntryIsReading(context, m, k);
    var c := Class(context, r.time, r.source, path);
    BucketMembers(keys, m, c, e);
    var i, j := ListReached(order, last, Grouped(keys, m).value, c);
    assert e in order[i].lists[j].1;
    EntriesInLists(order[i].lists, e);
    EntriesInOrder(order, e);
  }

  // ---------------------------------------------------------------- parsing what was generated

  function AllPut(temp: Fields, es: seq<Entry>): Fields {
    if es == [] then temp else AllPut(temp, es[..|es| - 1])[es[|es| - 1].0 := es[|es| - 1].1]
  }

  lemma {:induction false} PutTogether(temp: Fields, a: seq<Entry>, b: seq<Entry>)
    ensures AllPut(temp, a + b) == AllPut(AllPut(temp, a), b)
  {
    if b == [] {
      assert a + b == a;
    } else {
      var n := |b| - 1;
      assert (a + b)[..|a + b| - 1] == a + b[..n];
      PutTogether(temp, a, b[..n]);
    }
  }

  lemma {:induction false} PutsMap(temp: Fields, es: seq<Entry>, m: Fields)
    requires forall e :: e in es ==> e.0 in m && m[e.0] == e.1
    ensures forall k :: k in AllPut(temp, es) <==> k in temp || exists e :: e in es && e.0 == k
    ensures forall k :: k in AllPut(temp, es) ==>
              AllPut(temp, es)[k] == if exists e :: e in es && e.0 == k then m[k] else temp[k]
  {
    if es != [] {
      var n := |es| - 1;
      PutsMap(temp, es[..n], m);
      assert es == es[..n] + [es[n]];
    }
  }

  /** The item of an entry parses to the entry. */
  lemma ItemParses(context: Text, m: Fields, u: Update, e: Entry, now: Text)
    requires Belongs(context, m, u, e) && IsVessel(context)
    ensures UpdateOf(u).Obj? && Parsed(UpdateOf(u).fields, ItemOf(context, e), context, now) == Ok(Some(e))
  {
    var path, r :| IsReading(context, e.0, e.1, path, r) && u.time == r.time && u.source == r.source;
    ReadingClass(context, e.0, e.1, path, r);
    MadeItem(context, e, path, r);
    hide ItemOf, PathIn, ClassOf, IsReading, ItemsOf, EntriesIn;
    ParsedReading(UpdateOf(u).fields, context, path, r, now);
    assert path != [] by {
      ReadingHasPath(context, e, path, r);
    }
    SameKey(context, path, r.source);
    IsKey(context, e, path, r);
  }

  lemma ReadingHasPath(context: Text, e: Entry, path: Text, r: Reading)
    requires IsReading(context, e.0, e.1, path, r)
    ensures path != []
  {
  }

  lemma IsKey(context: Text, e: Entry, path: Text, r: Reading)
    requires IsReading(context, e.0, e.1, path, r)
    ensures e == (KeyFor(context, path, r.source), FullRoundTrip.ReadingEntry(r))
  {
  }

  lemma MadeItem(context: Text, e: Entry, path: Text, r: Reading)
    requires IsReading(context, e.0, e.1, path, r) && PathIn(e.0, context) == path
    ensures ItemOf(context, e) == Obj(map[PATH := Str(path), VALUE := r.value])
  {
    hide PathIn;
  }

  lemma SameKey(context: Text, path: Text, source: Text)
    requires path != []
    ensures InContext(context, path) + DOT_VALUES_DOT + source == KeyFor(context, path, source)
  {
    Regrouped(InContext(context, path), DOT_VALUES_DOT, source);
    Regrouped(context + [DOT], path, DOT_VALUES_DOT + source);
  }

  lemma ParsedReading(update: Fields, context: Text, path: Text, r: Reading, now: Text)
    requires SOURCE_REF in update && update[SOURCE_REF] == Str(r.source)
    requires TIMESTAMP in update && update[TIMESTAMP] == Str(r.time)
    ensures Parsed(update, Obj(map[PATH := Str(path), VALUE := r.value]), context, now)
            == Ok(Some((InContext(context, path) + DOT_VALUES_DOT + r.source, FullRoundTrip.ReadingEntry(r))))
  {
    hide InContext;
    var e := map[PATH := Str(path), VALUE := r.value][SOURCE_REF := Str(r.source)][TIMESTAMP := Str(r.time)] - {PATH};
    assert e == FullRoundTrip.ReadingEntry(r).fields;
  }

  lemma {:induction false} ItemsParse(context: Text, m: Fields, u: Update, es: seq<Entry>, temp: Fields, now: Text)
    requires IsVessel(context) && forall e :: e in es ==> Belongs(context, m, u, e)
    ensures UpdateOf(u).Obj? && PutParsed(temp, UpdateOf(u).fields, ItemsOf(context, es), context, now) == Ok(AllPut(temp, es))
  {
    hide Parsed, ItemOf, Belongs, UpdateOf, IsVessel;
    if es == [] {
      assert UpdateOf(u).Obj? by {
        UpdateIsObject(u);
      }
    } else {
      var n := |es| - 1;
      ItemsParse(context, m, u, es[..n], temp, now);
      assert es[n] in es;
      ItemParses(context, m, u, es[n], now);
      assert ItemsOf(context, es)[..n] == ItemsOf(context, es[..n]);
    }
  }

  lemma UpdateIsObject(u: Update)
    ensures UpdateOf(u).Obj?
  {
  }

  lemma UpdateParses(context: Text, m: Fields, u: Update, temp: Fields, now: Text)
    requires IsVessel(context) && u.context == context && forall e :: e in EntriesIn(u.lists) ==> Belongs(context, m, u, e)
    ensures UpdateParsed(temp, UpdateOf(u), context, now) == Ok(AllPut(temp, EntriesIn(u.lists)))
  {
    hide EntriesIn, PutParsed, Belongs, IsVessel, AllPut, ItemsOf;
    ItemsParse(context, m, u, EntriesIn(u.lists), temp, now);
  }

  lemma {:induction false} UpdatesParse(context: Text, m: Fields, order: seq<Update>, kind: Text, temp: Fields,
      now: Text)
    requires IsVessel(context) && kind != PUT
    requires forall i :: 0 <= i < |order| ==> order[i].context == context
    requires forall i, e :: 0 <= i < |order| && e in EntriesIn(order[i].lists) ==> Belongs(context, m, order[i], e)
    ensures AllParsed(temp, kind, Updates(order), context, now) == Ok(AllPut(temp, EntriesOf(order)))
  {
    hide EntriesIn, Belongs, IsVessel, UpdateOf, AllPut, ElementParsed;
    if order == [] {
      PutNothing(temp);
    } else {
      var n := |order| - 1;
      UpdatesParse(context, m, order[..n], kind, temp, now);
      assert Updates(order)[..n] == Updates(order[..n]);
      UpdateParses(context, m, order[n], AllPut(temp, EntriesOf(order[..n])), now);
      ElementIsUpdate(AllPut(temp, EntriesOf(order[..n])), kind, Updates(order)[n], context, now);
      PutTogether(temp, EntriesOf(order[..n]), EntriesIn(order[n].lists));
    }
  }

  lemma PutNothing(temp: Fields)
    ensures AllPut(temp, []) == temp
  {
  }

  // ---------------------------------------------------------------- the context

  lemma {:induction false} FixedSelfKey(key: Text, uuid: Text)
    ensures FixSelfKey(key, uuid) == key || FixSelfKey(key, uuid) == key + [DOT]
    decreases |key|
  {
    var self := [DOT] + uuid;
    if self + [DOT] <= key {
      var rest := key[|uuid| + 2..];
      FixedSelfKey(rest, uuid);
      assert key == self + [DOT] + rest;
      Regrouped(self + [DOT], rest, [DOT]);
    } else if key == self || key == [] {
    } else {
      FixedSelfKey(key[1..], uuid);
      assert key == [key[0]] + key[1..];
      Regrouped([key[0]], key[1..], [DOT]);
    }
  }

  /** A context that does not end in a dot comes through as it is, whatever the identity. */
  lemma ContextKept(context: Text, uuid: Text)
    requires context != [] && context[|context| - 1] != DOT
    ensures WithoutEndDot(FixSelfKey(context, uuid)) == context
  {
    FixedSelfKey(context, uuid);
    assert (context + [DOT])[..|context|] == context;
  }

  lemma VesselEnds(context: Text)
    requires IsVessel(context)
    ensures context != [] && context[|context| - 1] != DOT
  {
    var name :| IsSegment(name) && context == VESSELS + [DOT] + name;
    assert context[|context| - 1] == name[|name| - 1];
  }

  // ---------------------------------------------------------------- the round trip

  lemma OneSection(kind: Text, updates: Json, context: Text, temp: Fields, uuid: Text, now: Text)
    requires kind in [UPDATES, PUT, CONFIG] && updates.Arr? && WithoutEndDot(FixSelfKey(context, uuid)) == context
    ensures DeltaParsed(Obj(map[kind := updates, CONTEXT := Str(context)]), temp, uuid, now) ==
            var r := AllParsed(temp, kind, updates.items, context, now);
            if r.Ok? then Ok(Some(r.value)) else Err(r.error)
  {
    hide AllParsed, FixSelfKey, WithoutEndDot;
    var node := map[kind := updates, CONTEXT := Str(context)];
    assert node.Keys == {kind, CONTEXT};
    assert |UPDATES| == 7 && |CONTEXT| == 7 && UPDATES[0] != CONTEXT[0] && |VESSELS| == 7 && VESSELS[0] != CONTEXT[0];
    assert VESSELS[0] != UPDATES[0];
    assert |PUT| == 3 && |GET| == 3 && |CONFIG| == 6 && |SUBSCRIBE| == 9 && |UNSUBSCRIBE| == 11 && PUT[0] != GET[0];
  }

  /** What an order of the grouping of the map of a vessel goes through: its entries, all of them. */
  lemma OrderOfMap(context: Text, keys: seq<Text>, m: Fields, order: seq<Update>, last: Option<Text>)
    requires Lists(keys, m) && m != map[] && IsVesselMap(context, m)
    requires Grouped(keys, m).Ok? ==> IsOrder(order, last, Grouped(keys, m).value)
    ensures Grouped(keys, m).Ok? && last == Some(context) && forall i :: 0 <= i < |order| ==> order[i].context == context
    ensures forall k :: k in m ==> (k, m[k]) in EntriesOf(order)
    ensures forall i, e :: 0 <= i < |order| && e in EntriesIn(order[i].lists) ==> Belongs(context, m, order[i], e)
  {
    hide Lists, Grouped, IsVessel, EntriesIn, EntriesOf, Belongs, GoesThrough, IsReading, IsOrder, NoneEmpty, IsVesselMap;
    ListsKeys(keys, m);
    GroupingSucceeds(context, keys, m);
    GroupingConserves(keys, m);
    var msgs := Grouped(keys, m).value;
    forall k | k in m
      ensures (k, m[k]) in EntriesOf(order)
    {
      EntryReached(context, keys, m, order, last, k);
    }
    forall i | 0 <= i < |order|
      ensures GoesThrough(order[i], msgs)
    {
      EachGoesThrough(order, last, msgs, i);
    }
    forall i, e | 0 <= i < |order| && e in EntriesIn(order[i].lists)
      ensures Belongs(context, m, order[i], e)
    {
      EntryBelongs(context, keys, m, order[i], e);
    }
    SomeOrder(m, order);
    forall i | 0 <= i < |order|
      ensures order[i].context == context
    {
      OfContext(context, m, order[i], msgs);
    }
    LastIsOfLast(order, last, msgs);
  }

  lemma EachGoesThrough(order: seq<Update>, last: Option<Text>, msgs: ByContext, i: nat)
    requires IsOrder(order, last, msgs) && i < |order|
    ensures GoesThrough(order[i], msgs)
  {
    hide GoesThrough;
  }

  /** Where no map is empty, the context gone to last is that of the last update. */
  lemma LastIsOfLast(order: seq<Update>, last: Option<Text>, msgs: ByContext)
    requires IsOrder(order, last, msgs) && NoneEmpty(msgs) && order != []
    ensures last == Some(order[|order| - 1].context)
  {
    hide SomePaths, Nested;
    assert GoesThrough(order[0], msgs);
    var c := last.value;
    var t :| t in msgs[c];
    assert SomeSources(msgs[c][t]);
    var s :| s in msgs[c][t];
    assert (c, t, s) in TimePlaces(msgs, c);
  }

  /**
   * `parseDelta(mapToUpdatesDelta(m))`, and the same for `mapToConfigDelta`: for a map of one vessel every entry comes back as
   * it was, into whatever map they are put, and in whatever order the nested maps are gone through.
   */
  lemma ParseUndoesGenerate(context: Text, keys: seq<Text>, m: Fields, order: seq<Update>, last: Option<Text>, kind: Text,
      temp: Fields, uuid: Text, now: Text)
    requires Lists(keys, m) && m != map[] && IsVesselMap(context, m) && (kind == UPDATES || kind == CONFIG)
    requires Grouped(keys, m).Ok? ==> IsOrder(order, last, Grouped(keys, m).value)
    ensures Grouped(keys, m).Ok?
    ensures DeltaParsed(DeltaOf(order, last, kind), temp, uuid, now) == Ok(Some(temp + m))
  {
    hide Lists, Grouped, IsVessel, AllParsed, UpdateOf, EntriesIn, EntriesOf, AllPut, Belongs, IsOrder, DeltaParsed, IsReading;
    OrderOfMap(context, keys, m, order, last);
    VesselEnds(context);
    ContextKept(context, uuid);
    assert |PUT| == 3 && |UPDATES| == 7 && |CONFIG| == 6;
    UpdatesParse(context, m, order, kind, temp, now);
    OneSection(kind, Arr(Updates(order)), context, temp, uuid, now);
    AllOfMap(context, m, order, temp);
  }

  lemma {:induction false} StripsMap(m: Fields, es: seq<Entry>)
    requires forall e :: e in es ==> e.0 in m && m[e.0] == e.1
    ensures AllStripped(m, es).Keys == m.Keys
    ensures forall k :: k in m ==> AllStripped(m, es)[k] == if (k, m[k]) in es then Stripped(m[k]) else m[k]
  {
    hide Stripped;
    if es != [] {
      var n := |es| - 1;
      assert es == es[..n] + [es[n]];
      StripsMap(m, es[..n]);
    }
  }

  lemma AllLosesMarks(context: Text, m: Fields, order: seq<Update>)
    requires forall k :: k in m ==> (k, m[k]) in EntriesOf(order)
    requires forall i, e :: 0 <= i < |order| && e in EntriesIn(order[i].lists) ==> Belongs(context, m, order[i], e)
    ensures AllStripped(m, EntriesOf(order)) == map k | k in m :: Stripped(m[k])
  {
    hide EntriesIn, EntriesOf, AllStripped, Stripped;
    forall e | e in EntriesOf(order)
      ensures e.0 in m && m[e.0] == e.1
    {
      EntriesInOrder(order, e);
    }
    StripsMap(m, EntriesOf(order));
  }

  lemma EmptyDelta(keys: seq<Text>, m: Fields, order: seq<Update>, last: Option<Text>, kind: Text, temp: Fields,
      uuid: Text, now: Text)
    requires Lists(keys, m) && m == map[] && Grouped(keys, m).Ok? && IsOrder(order, last, Grouped(keys, m).value)
    ensures DeltaParsed(DeltaOf(order, last, kind), temp, uuid, now) == Ok(None)
    ensures AllStripped(m, EntriesOf(order)) == map[]
  {
    hide GoesThrough;
    ListsKeys(keys, m);
    FirstOf(keys);
    assert AllPlaces(map[]) == {};
    FirstPlace(order, map[], {});
  }

  lemma FirstOf(keys: seq<Text>)
    ensures keys == [] || keys[0] in keys
  {
  }

  lemma FirstPlace(order: seq<Update>, msgs: ByContext, places: set<Place>)
    requires IsWalk(order, msgs, places)
    ensures order == [] || PlaceOf(order[0]) in places
  {
  }

  /**
   * The three steps in a row, whatever way the hash maps are gone through: the entries come back, and the map they came
   * from is left without their times and sources. An empty map gives what is no delta.
   */
  method RoundTrip(ghost context: Text, keys: seq<Text>, m: Fields, kind: Text, temp: Fields, uuid: Text, now: Text)
    returns (r: Result<Option<Fields>>, after: Fields)
    requires Lists(keys, m) && IsVesselMap(context, m) && (kind == UPDATES || kind == CONFIG)
    ensures r == Ok(if m == map[] then None else Some(temp + m))
    ensures after == map k | k in m :: Stripped(m[k])
  {
    hide Lists, Grouped, IsVesselMap, IsOrder, DeltaOf, DeltaParsed, AllStripped, Stripped, EntriesOf, Belongs;
    ListsKeys(keys, m);
    GroupingSucceeds(context, keys, m);
    var msgs := MapToDeltaMap(keys, m);
    var delta;
    delta, after := GenerateDelta(msgs.value, kind, m);
    ghost var order, last :| IsGenerated(msgs.value, kind, m, order, last, delta, after);
    if m == map[] {
      EmptyDelta(keys, m, order, last, kind, temp, uuid, now);
    } else {
      ParseUndoesGenerate(context, keys, m, order, last, kind, temp, uuid, now);
      OrderOfMap(context, keys, m, order, last);
      AllLosesMarks(context, m, order);
    }
    r := ParseDelta(delta, temp, uuid, now);
  }

  /** `parseDelta(mapToPutDelta(m))` loses every entry: `generateDelta` puts updates where `parsePut` looks for a path. */
  lemma PutDeltaLost(context: Text, keys: seq<Text>, m: Fields, order: seq<Update>, last: Option<Text>, temp: Fields,
      uuid: Text, now: Text)
    requires Lists(keys, m) && m != map[] && IsVesselMap(context, m)
    requires Grouped(keys, m).Ok? ==> IsOrder(order, last, Grouped(keys, m).value)
    ensures DeltaParsed(DeltaOf(order, last, PUT), temp, uuid, now) == Ok(Some(temp))
  {
    hide Lists, Grouped, IsVessel, AllParsed, UpdateOf, EntriesIn, EntriesOf, Belongs, IsOrder, DeltaParsed, IsReading;
    OrderOfMap(context, keys, m, order, last);
    VesselEnds(context);
    ContextKept(context, uuid);
    PutsNothingBack(order, context, temp, now);
    OneSection(PUT, Arr(Updates(order)), context, temp, uuid, now);
  }

  lemma {:induction false} PutsNothingBack(order: seq<Update>, context: Text, temp: Fields, now: Text)
    ensures AllParsed(temp, PUT, Updates(order), context, now) == Ok(temp)
  {
    hide UpdateOf;
    if order != [] {
      var n := |order| - 1;
      PutsNothingBack(order[..n], context, temp, now);
      assert Updates(order)[..n] == Updates(order[..n]);
      UpdateHasNoPath(order[n]);
    }
  }

  lemma UpdateHasNoPath(u: Update)
    ensures UpdateOf(u).Obj? && PATH !in UpdateOf(u).fields
  {
    hide ItemsOf, EntriesIn;
    assert |PATH| == 4 && |VALUES| == 6 && |TIMESTAMP| == 9 && |SOURCE_REF| == 7;
  }

  lemma ListsKeys(keys: seq<Text>, m: Fields)
    requires Lists(keys, m)
    ensures forall k :: k in keys ==> k in m
  {
  }

  lemma SomeOrder(m: Fields, order: seq<Update>)
    requires m != map[] && forall k :: k in m ==> (k, m[k]) in EntriesOf(order)
    ensures order != []
  {
    assert exists k :: k in m;
  }

  lemma OfContext(context: Text, m: Fields, u: Update, msgs: ByContext)
    requires GoesThrough(u, msgs) && NoneEmpty(msgs)
    requires forall e :: e in EntriesIn(u.lists) ==> Belongs(context, m, u, e)
    ensures u.context == context
  {
    hide Bucket, EntriesIn;
    var paths := msgs[u.context][u.time][u.source];
    assert SomeSources(msgs[u.context][u.time]) && SomePaths(paths);
    var p :| p in paths;
    var e := u.lists[0].1[0];
    assert e in u.lists[0].1;
    EntriesInLists(u.lists, e);
  }

  lemma AllOfMap(context: Text, m: Fields, order: seq<Update>, temp: Fields)
    requires forall k :: k in m ==> (k, m[k]) in EntriesOf(order)
    requires forall i, e :: 0 <= i < |order| && e in EntriesIn(order[i].lists) ==> Belongs(context, m, order[i], e)
    ensures AllPut(temp, EntriesOf(order)) == temp + m
  {
    hide EntriesIn, EntriesOf, AllPut;
    forall e | e in EntriesOf(order)
      ensures e.0 in m && m[e.0] == e.1
    {
      EntriesInOrder(order, e);
    }
    AllEntries(temp, EntriesOf(order), m);
  }

  lemma AllEntries(temp: Fields, es: seq<Entry>, m: Fields)
    requires forall e :: e in es ==> e.0 in m && m[e.0] == e.1
    requires forall k :: k in m ==> (k, m[k]) in es
    ensures AllPut(temp, es) == temp + m
  {
    hide AllPut;
    PutsMap(temp, es, m);
    forall k
      ensures k in m <==> exists e :: e in es && e.0 == k
    {
      if k in m {
        assert (k, m[k]) in es && (k, m[k]).0 == k;
      }
    }
  }
}
