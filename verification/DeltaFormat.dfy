/** The delta format: grouping the entries of the flat map, `generateDelta` and `parseDelta`. */
module DeltaFormat {
  import opened Units
  import opened JsonValues
  import opened ReaderSpec
  import opened SignalKKeys
  import opened FullFormat

  // ---------------------------------------------------------------- contexts

  /** `trim`. */
  function Trim(t: Text): Text {
    if t != [] && t[0] <= SPACE then Trim(t[1..])
    else if t != [] && t[|t| - 1] <= SPACE then Trim(t[..|t| - 1])
    else t
  }

  predicate Blank(t: Text) {
    forall i :: 0 <= i < |t| ==> IsWhitespace(t[i])
  }

  /** The text up to the first dot from a position on. */
  function UpToDot(t: Text, from: nat): Text {
    if from > |t| then t
    else
      var i := IndexOf(t[from..], [DOT]);
      if i < 0 then t else t[..from + i]
  }

  /** `Util.getContext`. */
  function GetContext(path: Text): Text {
    var p := Trim(path);
    if Blank(p) then []
    else if p == RESOURCES || RESOURCES + [DOT] <= p || p == SOURCES || SOURCES + [DOT] <= p || p == CONFIG || p == VESSELS then p
    else if CONFIG + [DOT] <= p then UpToDot(p, |CONFIG| + 1)
    else if VESSELS + [DOT] <= p || LIST + [DOT] + VESSELS + [DOT] <= p then UpToDot(p, IndexOf(p, VESSELS) + |VESSELS| + 1)
    else p
  }

  // ---------------------------------------------------------------- grouping

  type Entry = (Text, Json)

  type ByPath = map<Text, seq<Entry>>
  type BySource = map<Text, ByPath>
  type ByTime = map<Text, BySource>
  type ByContext = map<Text, ByTime>

  /** Where an entry is filed. */
  datatype Class = Class(context: Text, time: Text, source: Text, path: Text)

  /** A field of an entry as text, `none` if there is no such field. */
  function MarkOf(v: Json, name: Text): Result<Text> {
    if v.Obj? && name in v.fields then AsKey(v.fields[name]) else Ok(NONE)
  }

  function PathIn(key: Text, context: Text): Text {
    SubstringBefore(SubstringAfter(key, context + [DOT]), DOT_VALUES_DOT)
  }

  /** The class of an entry; sources and attributes have none. */
  function ClassOf(key: Text, v: Json): Result<Option<Class>> {
    if SOURCES <= key || EndsWith(key, ATTR) then Ok(None)
    else
      var context := GetContext(key);
      var time :- MarkOf(v, TIMESTAMP);
      var source :- MarkOf(v, SOURCE_REF);
      Ok(Some(Class(context, time, source, PathIn(key, context))))
  }

  function Get<V>(m: map<Text, V>, k: Text, default: V): V {
    if k in m then m[k] else default
  }

  /** The list of a class. */
  function Bucket(msgs: ByContext, c: Class): seq<Entry> {
    Get(Get(Get(Get(msgs, c.context, map[]), c.time, map[]), c.source, map[]), c.path, [])
  }

  /** No list and no map is there for nothing. */
  predicate NoneEmpty(msgs: ByContext) {
    forall c :: c in msgs ==> SomeTimes(msgs[c])
  }

  predicate SomeTimes(times: ByTime) {
    times != map[] && forall t :: t in times ==> SomeSources(times[t])
  }

  predicate SomeSources(sources: BySource) {
    sources != map[] && forall s :: s in sources ==> SomePaths(sources[s])
  }

  predicate SomePaths(paths: ByPath) {
    paths != map[] && forall p :: p in paths ==> paths[p] != []
  }

  function Filed(msgs: ByContext, c: Class, e: Entry): ByContext {
    var ctxMap := Get(msgs, c.context, map[]);
    var tsMap := Get(ctxMap, c.time, map[]);
    var srcMap := Get(tsMap, c.source, map[]);
    var list := Get(srcMap, c.path, []);
    msgs[c.context := ctxMap[c.time := tsMap[c.source := srcMap[c.path := list + [e]]]]]
  }

  /** Everything filed, in the order of the keys. */
  function Grouped(keys: seq<Text>, m: Fields): Result<ByContext>
    requires forall k :: k in keys ==> k in m
  {
    if keys == [] then Ok(map[])
    else
      var n := |keys| - 1;
      var before :- Grouped(keys[..n], m);
      var place :- ClassOf(keys[n], m[keys[n]]);
      match place
      case None => Ok(before)
      case Some(c) => Ok(Filed(before, c, (keys[n], m[keys[n]])))
  }

  method MapToDeltaMap(keys: seq<Text>, m: Fields) returns (r: Result<ByContext>)
    requires Lists(keys, m)
    ensures r.Ok? <==> Grouped(keys, m).Ok?
    ensures r.Ok? ==> r == Grouped(keys, m)
  {
    hide ClassOf, Ascending, GetContext;
    var msgs: ByContext := map[];
    for i := 0 to |keys|
      invariant Grouped(keys[..i], m) == Ok(msgs)
    {
      assert keys[..i + 1][..i] == keys[..i] && keys[..i + 1][i] == keys[i];
      var place := ClassOf(keys[i], m[keys[i]]);
      if place.Err? {
        GroupingFailed(keys, m, i + 1);
        return Err(place.error);
      }
      if place.value.Some? {
        var c := place.value.value;
        var ctxMap := if c.context in msgs then msgs[c.context] else map[];
        var tsMap := if c.time in ctxMap then ctxMap[c.time] else map[];
        var srcMap := if c.source in tsMap then tsMap[c.source] else map[];
        var list := if c.path in srcMap then srcMap[c.path] else [];
        srcMap := srcMap[c.path := list + [(keys[i], m[keys[i]])]];
        tsMap := tsMap[c.source := srcMap];
        ctxMap := ctxMap[c.time := tsMap];
        msgs := msgs[c.context := ctxMap];
      }
    }
    assert keys[..|keys|] == keys;
    return Ok(msgs);
  }

  lemma {:induction false} GroupingFailed(keys: seq<Text>, m: Fields, i: nat)
    requires i <= |keys| && (forall k :: k in keys ==> k in m) && Grouped(keys[..i], m).Err?
    ensures Grouped(keys, m).Err?
    decreases |keys| - i
  {
    hide ClassOf, Filed;
    if i == |keys| {
      assert keys[..i] == keys;
    } else {
      assert keys[..i + 1][..i] == keys[..i];
      GroupingFailed(keys, m, i + 1);
    }
  }

  // ---------------------------------------------------------------- grouping conserves

  /** The entries of a class, in the order of the keys. */
  function Listed(keys: seq<Text>, m: Fields, c: Class): seq<Entry>
    requires forall k :: k in keys ==> k in m
  {
    if keys == [] then []
    else
      var n := |keys| - 1;
      Listed(keys[..n], m, c)
      + if ClassOf(keys[n], m[keys[n]]) == Ok(Some(c)) then [(keys[n], m[keys[n]])] else []
  }

  lemma FiledBuckets(msgs: ByContext, c: Class, e: Entry, d: Class)
    ensures Bucket(Filed(msgs, c, e), d) == if c == d then Bucket(msgs, d) + [e] else Bucket(msgs, d)
  {
  }

  lemma PathAdded(paths: ByPath, p: Text, e: Entry)
    requires paths == map[] || SomePaths(paths)
    ensures SomePaths(paths[p := Get(paths, p, []) + [e]])
  {
    assert p in paths[p := Get(paths, p, []) + [e]];
  }

  lemma SourceAdded(sources: BySource, s: Text, paths: ByPath)
    requires SomePaths(paths) && (sources == map[] || SomeSources(sources))
    ensures SomeSources(sources[s := paths])
  {
    hide SomePaths;
    assert s in sources[s := paths];
  }

  lemma TimeAdded(times: ByTime, t: Text, sources: BySource)
    requires SomeSources(sources) && (times == map[] || SomeTimes(times))
    ensures SomeTimes(times[t := sources])
  {
    hide SomeSources;
    assert t in times[t := sources];
  }

  lemma Parts(times: ByTime, t: Text, s: Text)
    requires times == map[] || SomeTimes(times)
    ensures Get(times, t, map[]) == map[] || SomeSources(Get(times, t, map[]))
    ensures Get(Get(times, t, map[]), s, map[]) == map[] || SomePaths(Get(Get(times, t, map[]), s, map[]))
  {
    hide SomePaths;
  }

  lemma FiledNoneEmpty(msgs: ByContext, c: Class, e: Entry)
    requires NoneEmpty(msgs)
    ensures NoneEmpty(Filed(msgs, c, e))
  {
    hide SomePaths, SomeSources, SomeTimes;
    var ctxMap := Get(msgs, c.context, map[]);
    var tsMap := Get(ctxMap, c.time, map[]);
    var srcMap := Get(tsMap, c.source, map[]);
    Parts(ctxMap, c.time, c.source);
    var srcMap' := srcMap[c.path := Get(srcMap, c.path, []) + [e]];
    PathAdded(srcMap, c.path, e);
    SourceAdded(tsMap, c.source, srcMap');
    TimeAdded(ctxMap, c.time, tsMap[c.source := srcMap']);
  }

  /**
   * Every list is exactly the entries of its class, in order, and there is no empty list or map: each entry is in the
   * bucket of its class once, and nothing else is anywhere.
   */
  lemma {:induction false} GroupingConserves(keys: seq<Text>, m: Fields)
    requires (forall k :: k in keys ==> k in m) && Grouped(keys, m).Ok?
    ensures NoneEmpty(Grouped(keys, m).value)
    ensures forall c :: Bucket(Grouped(keys, m).value, c) == Listed(keys, m, c)
  {
    hide ClassOf, Filed, NoneEmpty;
    if keys == [] {
      EmptyHasNone();
    } else {
      var n := |keys| - 1;
      GroupingConserves(keys[..n], m);
      var before := Grouped(keys[..n], m).value;
      var place := ClassOf(keys[n], m[keys[n]]).value;
      if place.Some? {
        var e := (keys[n], m[keys[n]]);
        FiledNoneEmpty(before, place.value, e);
        forall c
          ensures Bucket(Filed(before, place.value, e), c) == Listed(keys, m, c)
        {
          FiledBuckets(before, place.value, e, c);
        }
      }
    }
  }

  lemma EmptyHasNone()
    ensures NoneEmpty(map[]) && forall c :: Bucket(map[], c) == []
  {
  }

  /** Which entries a list has: those of the class, each once because the keys of a map differ. */
  lemma {:induction false} ListedMembers(keys: seq<Text>, m: Fields, c: Class)
    requires (forall k :: k in keys ==> k in m) && forall i, j :: 0 <= i < j < |keys| ==> keys[i] != keys[j]
    ensures forall e :: e in Listed(keys, m, c) <==>
                        e.0 in keys && m[e.0] == e.1 && ClassOf(e.0, e.1) == Ok(Some(c))
    ensures forall i, j :: 0 <= i < j < |Listed(keys, m, c)| ==> Listed(keys, m, c)[i] != Listed(keys, m, c)[j]
  {
    hide ClassOf;
    if keys != [] {
      var n := |keys| - 1;
      ListedMembers(keys[..n], m, c);
      assert forall k :: k in keys <==> k in keys[..n] || k == keys[n];
      assert keys[n] !in keys[..n];
    }
  }

  // ---------------------------------------------------------------- generating

  /** The entries of one update, with the path they are filed under. */
  datatype Update = Update(context: Text, time: Text, source: Text, lists: seq<(Text, seq<Entry>)>)

  /** The item that an entry becomes. */
  function ItemOf(context: Text, e: Entry): Json {
    var named: Fields := map[PATH := Str(PathIn(e.0, context))];
    if !e.1.Obj? then Obj(named[VALUE := e.1])
    else if VALUE in e.1.fields then Obj(named[VALUE := e.1.fields[VALUE]])
    else Obj(named)
  }

  function ItemsOf(context: Text, es: seq<Entry>): (items: seq<Json>)
    ensures |items| == |es| && forall i :: 0 <= i < |es| ==> items[i] == ItemOf(context, es[i])
  {
    seq(|es|, i requires 0 <= i < |es| => ItemOf(context, es[i]))
  }

  /** All entries of an update, list by list. */
  function EntriesIn(lists: seq<(Text, seq<Entry>)>): seq<Entry> {
    if lists == [] then [] else EntriesIn(lists[..|lists| - 1]) + lists[|lists| - 1].1
  }

  function UpdateOf(u: Update): Json {
    Obj(map[VALUES := Arr(ItemsOf(u.context, EntriesIn(u.lists))), TIMESTAMP := Str(u.time), SOURCE_REF := Str(u.source)])
  }

  function Updates(order: seq<Update>): (js: seq<Json>)
    ensures |js| == |order| && forall i :: 0 <= i < |js| ==> js[i] == UpdateOf(order[i])
  {
    seq(|order|, i requires 0 <= i < |order| => UpdateOf(order[i]))
  }

  /** The delta of the updates in an order; it has one context, the last one gone through. */
  function DeltaOf(order: seq<Update>, last: Option<Text>, deltatype: Text): Json {
    if last.None? then Obj(map[]) else Obj(map[deltatype := Arr(Updates(order)), CONTEXT := Str(last.value)])
  }

  /** An update without its marks: what `generateDelta` leaves of an entry of the map it is given. */
  function Stripped(v: Json): Json {
    if v.Obj? then Obj(v.fields - {TIMESTAMP, SOURCE_REF}) else v
  }

  function AllStripped(m: Fields, es: seq<Entry>): Fields {
    if es == [] then m
    else
      var e := es[|es| - 1];
      AllStripped(m, es[..|es| - 1])[e.0 := Stripped(e.1)]
  }

  function EntriesOf(order: seq<Update>): seq<Entry> {
    if order == [] then [] else EntriesOf(order[..|order| - 1]) + EntriesIn(order[|order| - 1].lists)
  }

  // ---------------------------------------------------------------- going through the nested maps

  /** The context, the time and the source of an innermost map. */
  type Place = (Text, Text, Text)

  function PlaceOf(u: Update): Place {
    (u.context, u.time, u.source)
  }

  predicate HasPlace(msgs: ByContext, p: Place) {
    p.0 in msgs && p.1 in msgs[p.0] && p.2 in msgs[p.0][p.1]
  }

  /** All lists of an innermost map, each once, in some order. */
  ghost predicate IsListing(lists: seq<(Text, seq<Entry>)>, paths: ByPath) {
    && (forall j :: 0 <= j < |lists| ==> lists[j].0 in paths && lists[j].1 == paths[lists[j].0])
    && (forall i, j :: 0 <= i < j < |lists| ==> lists[i].0 != lists[j].0)
    && forall p :: p in paths ==> exists j :: 0 <= j < |lists| && lists[j].0 == p
  }

  ghost predicate GoesThrough(u: Update, msgs: ByContext) {
    HasPlace(msgs, PlaceOf(u)) && IsListing(u.lists, msgs[u.context][u.time][u.source])
  }

  /** One update for each of the places, and no other. */
  ghost predicate IsWalk(us: seq<Update>, msgs: ByContext, places: set<Place>) {
    && (forall i :: 0 <= i < |us| ==> GoesThrough(us[i], msgs) && PlaceOf(us[i]) in places)
    && (forall i, j :: 0 <= i < j < |us| ==> PlaceOf(us[i]) != PlaceOf(us[j]))
    && forall p :: p in places ==> exists i :: 0 <= i < |us| && PlaceOf(us[i]) == p
  }

  /** What belongs to one context is together, and what belongs to one time in it. */
  ghost predicate Nested(us: seq<Update>) {
    forall i, j, k :: 0 <= i < j < k < |us| && us[i].context == us[k].context ==>
      && us[j].context == us[i].context
      && (us[i].time == us[k].time ==> us[j].time == us[i].time)
  }

  function SourcePlaces(msgs: ByContext, c: Text, t: Text): set<Place>
    requires c in msgs && t in msgs[c]
  {
    set s | s in msgs[c][t] :: (c, t, s)
  }

  function TimePlaces(msgs: ByContext, c: Text): set<Place>
    requires c in msgs
  {
    set t, s | t in msgs[c] && s in msgs[c][t] :: (c, t, s)
  }

  function AllPlaces(msgs: ByContext): set<Place> {
    set c, t, s | c in msgs && t in msgs[c] && s in msgs[c][t] :: (c, t, s)
  }

  /** A way to go through the nested maps, and the context it comes to last. */
  ghost predicate IsOrder(order: seq<Update>, last: Option<Text>, msgs: ByContext) {
    && IsWalk(order, msgs, AllPlaces(msgs)) && Nested(order)
    && (last.None? <==> msgs == map[])
    && (last.Some? ==> last.value in msgs)
    && (last.Some? && TimePlaces(msgs, last.value) != {} ==> order != [] && order[|order| - 1].context == last.value)
  }

  lemma WalkedOne(u: Update, msgs: ByContext)
    requires GoesThrough(u, msgs)
    ensures IsWalk([u], msgs, {PlaceOf(u)}) && Nested([u])
    ensures Updates([u]) == [UpdateOf(u)] && EntriesOf([u]) == EntriesIn(u.lists)
  {
    hide GoesThrough, UpdateOf, EntriesIn;
    assert [u][0] == u && [u][..0] == [];
    assert EntriesOf([]) + EntriesIn(u.lists) == EntriesIn(u.lists);
  }

  lemma WalkedNone(msgs: ByContext)
    ensures IsWalk([], msgs, {}) && Nested([]) && Updates([]) == [] && EntriesOf([]) == []
  {
  }

  lemma WalkedBoth(a: seq<Update>, b: seq<Update>, msgs: ByContext, p: set<Place>, q: set<Place>)
    requires IsWalk(a, msgs, p) && IsWalk(b, msgs, q) && p !! q
    ensures IsWalk(a + b, msgs, p + q)
  {
    hide GoesThrough, PlaceOf;
    var us := a + b;
    forall i | 0 <= i < |us|
      ensures GoesThrough(us[i], msgs) && PlaceOf(us[i]) in p + q
      ensures PlaceOf(us[i]) in p <==> i < |a|
    {
      assert i < |a| ==> us[i] == a[i];
      assert i >= |a| ==> us[i] == b[i - |a|];
    }
    forall i, j | 0 <= i < j < |us|
      ensures PlaceOf(us[i]) != PlaceOf(us[j])
    {
      if j < |a| {
        assert us[i] == a[i] && us[j] == a[j];
      } else if i >= |a| {
        assert us[i] == b[i - |a|] && us[j] == b[j - |a|];
      }
    }
    forall x | x in p + q
      ensures exists i :: 0 <= i < |us| && PlaceOf(us[i]) == x
    {
      if x in p {
        var i :| 0 <= i < |a| && PlaceOf(a[i]) == x;
        assert us[i] == a[i];
      } else {
        var i :| 0 <= i < |b| && PlaceOf(b[i]) == x;
        assert us[|a| + i] == b[i];
      }
    }
  }

  /** Two walks behind each other are nested if they have no context in common, or one context and no time. */
  lemma NestedBoth(a: seq<Update>, b: seq<Update>, c: Text)
    requires Nested(a) && Nested(b)
    requires || (forall i, j :: 0 <= i < |a| && 0 <= j < |b| ==> a[i].context != b[j].context)
             || ((forall i :: 0 <= i < |a| ==> a[i].context == c) && (forall j :: 0 <= j < |b| ==> b[j].context == c)
                 && (forall i, j :: 0 <= i < |a| && 0 <= j < |b| ==> a[i].time != b[j].time))
    ensures Nested(a + b)
  {
    var us := a + b;
    assert forall i :: 0 <= i < |a| ==> us[i] == a[i];
    assert forall i :: |a| <= i < |us| ==> us[i] == b[i - |a|];
  }

  lemma {:induction false} EntriesOfBoth(a: seq<Update>, b: seq<Update>)
    ensures EntriesOf(a + b) == EntriesOf(a) + EntriesOf(b)
  {
    hide EntriesIn;
    if b == [] {
      assert a + b == a;
    } else {
      var n := |b| - 1;
      EntriesOfBoth(a, b[..n]);
      assert (a + b)[..|a + b| - 1] == a + b[..n] && (a + b)[|a + b| - 1] == b[n];
      Regrouped(EntriesOf(a), EntriesOf(b[..n]), EntriesIn(b[n].lists));
    }
  }

  lemma UpdatesOfBoth(a: seq<Update>, b: seq<Update>)
    ensures Updates(a + b) == Updates(a) + Updates(b)
  {
    hide UpdateOf;
  }

  /** The walk goes on: what is written and what is left of the map is that of both parts. */
  lemma WalksOn(m: Fields, earlier: seq<Entry>, a: seq<Update>, b: seq<Update>)
    ensures Updates(a + b) == Updates(a) + Updates(b)
    ensures earlier + EntriesOf(a + b) == earlier + EntriesOf(a) + EntriesOf(b)
  {
    hide EntriesOf, Updates;
    EntriesOfBoth(a, b);
    UpdatesOfBoth(a, b);
    Regrouped(earlier, EntriesOf(a), EntriesOf(b));
  }

  /** The delta and the map that is left are those of some way to go through the nested maps. */
  ghost predicate IsGenerated(msgs: ByContext, deltatype: Text, m: Fields, order: seq<Update>, last: Option<Text>,
      delta: Json, after: Fields) {
    && IsOrder(order, last, msgs)
    && delta == DeltaOf(order, last, deltatype)
    && after == AllStripped(m, EntriesOf(order))
  }

  method GenerateDelta(msgs: ByContext, deltatype: Text, m: Fields) returns (delta: Json, after: Fields)
    ensures exists order, last :: IsGenerated(msgs, deltatype, m, order, last, delta, after)
  {
    hide IsWalk, Nested, Updates, AllStripped, EntriesOf;
    ghost var order: seq<Update>, last: Option<Text> := [], None;
    delta, after := Obj(map[]), m;
    WalkedNone(msgs);
    StripsNone(m);
    if msgs == map[] {
      assert AllPlaces(msgs) == {};
      assert IsGenerated(msgs, deltatype, m, order, last, delta, after);
      return;
    }
    var updatesArray, todo, context := [], msgs.Keys, [];
    ghost var gone: set<Place> := {};
    while todo != {}
      invariant todo <= msgs.Keys
      invariant gone == set c, t, s | c in msgs.Keys - todo && t in msgs[c] && s in msgs[c][t] :: (c, t, s)
      invariant IsWalk(order, msgs, gone) && Nested(order)
      invariant todo == msgs.Keys || (context in msgs.Keys - todo && last == Some(context))
      invariant last.Some? && context in msgs && TimePlaces(msgs, context) != {} ==> order != [] && order[|order| - 1].context == context
      invariant updatesArray == Updates(order) && after == AllStripped(m, EntriesOf(order))
    {
      context :| context in todo;
      todo := todo - {context};
      var more;
      ghost var us;
      more, after, us := GenerateContext(msgs, context, m, EntriesOf(order), after);
      ghost var places := TimePlaces(msgs, context);
      WalkContexts(order, us, msgs, gone, context);
      WalksOn(m, [], order, us);
      assert [] + EntriesOf(order + us) == EntriesOf(order + us) && [] + EntriesOf(order) == EntriesOf(order);
      order, last, gone, updatesArray := order + us, Some(context), gone + places, updatesArray + more;
    }
    assert gone == AllPlaces(msgs);
    delta := Obj(map[deltatype := Arr(updatesArray), CONTEXT := Str(context)]);
    assert IsGenerated(msgs, deltatype, m, order, last, delta, after);
  }

  lemma StripsNone(m: Fields)
    ensures AllStripped(m, []) == m
  {
  }

  lemma WalkContexts(order: seq<Update>, us: seq<Update>, msgs: ByContext, gone: set<Place>, c: Text)
    requires c in msgs && IsWalk(order, msgs, gone) && Nested(order) && (forall p :: p in gone ==> p.0 != c)
    requires IsWalk(us, msgs, TimePlaces(msgs, c)) && Nested(us)
    ensures IsWalk(order + us, msgs, gone + TimePlaces(msgs, c)) && Nested(order + us)
    ensures TimePlaces(msgs, c) != {} ==> us != [] && (order + us)[|order + us| - 1].context == c
  {
    hide GoesThrough;
    WalkedBoth(order, us, msgs, gone, TimePlaces(msgs, c));
    forall i, j | 0 <= i < |order| && 0 <= j < |us|
      ensures order[i].context != us[j].context
    {
      assert PlaceOf(order[i]) in gone && PlaceOf(us[j]) in TimePlaces(msgs, c);
    }
    NestedBoth(order, us, c);
    if p :| p in TimePlaces(msgs, c) {
      var i :| 0 <= i < |us| && PlaceOf(us[i]) == p;
      assert PlaceOf(us[|us| - 1]) in TimePlaces(msgs, c);
    }
  }

  /** The updates of one context. */
  method GenerateContext(msgs: ByContext, c: Text, m: Fields, ghost earlier: seq<Entry>, before: Fields)
    returns (updates: seq<Json>, after: Fields, ghost us: seq<Update>)
    requires c in msgs && before == AllStripped(m, earlier)
    ensures IsWalk(us, msgs, TimePlaces(msgs, c)) && Nested(us)
    ensures updates == Updates(us) && after == AllStripped(m, earlier + EntriesOf(us))
  {
    hide IsWalk, Nested, Updates, AllStripped, EntriesOf;
    updates, after, us := [], before, [];
    WalkedNone(msgs);
    assert earlier + [] == earlier;
    var todo := msgs[c].Keys;
    ghost var gone: set<Place> := {};
    while todo != {}
      invariant todo <= msgs[c].Keys
      invariant gone == set t, s | t in msgs[c].Keys - todo && s in msgs[c][t] :: (c, t, s)
      invariant IsWalk(us, msgs, gone) && Nested(us)
      invariant updates == Updates(us) && after == AllStripped(m, earlier + EntriesOf(us))
    {
      var t :| t in todo;
      todo := todo - {t};
      var more;
      ghost var next;
      more, after, next := GenerateTime(msgs, c, t, m, earlier + EntriesOf(us), after);
      WalkTimes(us, next, msgs, gone, c, t);
      WalksOn(m, earlier, us, next);
      us, gone, updates := us + next, gone + SourcePlaces(msgs, c, t), updates + more;
    }
    assert gone == TimePlaces(msgs, c);
  }

  lemma WalkTimes(us: seq<Update>, next: seq<Update>, msgs: ByContext, gone: set<Place>, c: Text, t: Text)
    requires c in msgs && t in msgs[c]
    requires IsWalk(us, msgs, gone) && Nested(us) && (forall p :: p in gone ==> p.0 == c && p.1 != t)
    requires IsWalk(next, msgs, SourcePlaces(msgs, c, t)) && Nested(next)
    ensures IsWalk(us + next, msgs, gone + SourcePlaces(msgs, c, t)) && Nested(us + next)
  {
    hide GoesThrough;
    WalkedBoth(us, next, msgs, gone, SourcePlaces(msgs, c, t));
    forall i | 0 <= i < |us|
      ensures us[i].context == c && us[i].time != t
    {
      assert PlaceOf(us[i]) in gone;
    }
    forall j | 0 <= j < |next|
      ensures next[j].context == c && next[j].time == t
    {
      assert PlaceOf(next[j]) in SourcePlaces(msgs, c, t);
    }
    NestedBoth(us, next, c);
  }

  /** The updates of one time in a context. */
  method GenerateTime(msgs: ByContext, c: Text, t: Text, m: Fields, ghost earlier: seq<Entry>, before: Fields)
    returns (updates: seq<Json>, after: Fields, ghost us: seq<Update>)
    requires c in msgs && t in msgs[c] && before == AllStripped(m, earlier)
    ensures IsWalk(us, msgs, SourcePlaces(msgs, c, t)) && Nested(us)
    ensures updates == Updates(us) && after == AllStripped(m, earlier + EntriesOf(us))
  {
    hide IsWalk, Nested, Updates, AllStripped, EntriesOf, EntriesIn, ItemsOf;
    updates, after, us := [], before, [];
    WalkedNone(msgs);
    assert earlier + [] == earlier;
    var todo := msgs[c][t].Keys;
    ghost var gone: set<Place> := {};
    while todo != {}
      invariant todo <= msgs[c][t].Keys
      invariant gone == set s | s in msgs[c][t].Keys - todo :: (c, t, s)
      invariant IsWalk(us, msgs, gone) && Nested(us)
      invariant updates == Updates(us) && after == AllStripped(m, earlier + EntriesOf(us))
    {
      var s :| s in todo;
      todo := todo - {s};
      var valuesArray;
      ghost var lists;
      valuesArray, after, lists := GenerateItems(c, msgs[c][t][s], m, earlier + EntriesOf(us), after);
      ghost var u := Update(c, t, s, lists);
      WalkSources(us, u, msgs, gone);
      WalksOn(m, earlier, us, [u]);
      us, gone := us + [u], gone + {(c, t, s)};
      updates := updates + [Obj(map[VALUES := Arr(valuesArray), TIMESTAMP := Str(t), SOURCE_REF := Str(s)])];
    }
    assert gone == SourcePlaces(msgs, c, t);
  }

  lemma WalkSources(us: seq<Update>, u: Update, msgs: ByContext, gone: set<Place>)
    requires GoesThrough(u, msgs) && PlaceOf(u) !in gone
    requires IsWalk(us, msgs, gone) && Nested(us) && (forall p :: p in gone ==> p.0 == u.context && p.1 == u.time)
    ensures IsWalk(us + [u], msgs, gone + {PlaceOf(u)}) && Nested(us + [u])
    ensures Updates([u]) == [UpdateOf(u)] && EntriesOf([u]) == EntriesIn(u.lists)
  {
    hide GoesThrough;
    WalkedOne(u, msgs);
    WalkedBoth(us, [u], msgs, gone, {PlaceOf(u)});
    forall i | 0 <= i < |us|
      ensures us[i].context == u.context && us[i].time == u.time
    {
      assert PlaceOf(us[i]) in gone;
    }
  }

  /** The values of one update. */
  method GenerateItems(context: Text, paths: ByPath, m: Fields, ghost earlier: seq<Entry>, before: Fields)
    returns (items: seq<Json>, after: Fields, ghost lists: seq<(Text, seq<Entry>)>)
    requires before == AllStripped(m, earlier)
    ensures IsListing(lists, paths)
    ensures items == ItemsOf(context, EntriesIn(lists))
    ensures after == AllStripped(m, earlier + EntriesIn(lists))
  {
    hide ItemOf, Stripped, ItemsOf, AllStripped, EntriesIn;
    NoItemsYet(context);
    items, after, lists := [], before, [];
    assert earlier + [] == earlier;
    var todo := paths.Keys;
    while todo != {}
      invariant todo <= paths.Keys
      invariant IsListing(lists, paths - todo)
      invariant items == ItemsOf(context, EntriesIn(lists))
      invariant after == AllStripped(m, earlier + EntriesIn(lists))
    {
      var p :| p in todo;
      items, after := GenerateList(context, paths[p], m, earlier, EntriesIn(lists), items, after);
      OneMoreList(lists, (p, paths[p]));
      ListingGrows(lists, paths, todo, p);
      lists, todo := lists + [(p, paths[p])], todo - {p};
    }
    assert paths - todo == paths;
  }

  lemma ListingGrows(lists: seq<(Text, seq<Entry>)>, paths: ByPath, todo: set<Text>, p: Text)
    requires IsListing(lists, paths - todo) && p in todo && p in paths
    ensures IsListing(lists + [(p, paths[p])], paths - (todo - {p}))
  {
    var lists' := lists + [(p, paths[p])];
    forall q | q in paths - (todo - {p})
      ensures exists j :: 0 <= j < |lists'| && lists'[j].0 == q
    {
      if q == p {
        assert lists'[|lists|].0 == p;
      } else {
        assert q in paths - todo;
        var j :| 0 <= j < |lists| && lists[j].0 == q;
        assert lists'[j].0 == q;
      }
    }
  }

  /** The values of one list. */
  method GenerateList(context: Text, list: seq<Entry>, m: Fields, ghost earlier: seq<Entry>, ghost gone: seq<Entry>,
      items0: seq<Json>, before: Fields) returns (items: seq<Json>, after: Fields)
    requires items0 == ItemsOf(context, gone) && before == AllStripped(m, earlier + gone)
    ensures items == ItemsOf(context, gone + list) && after == AllStripped(m, earlier + (gone + list))
  {
    hide ItemOf, Stripped, ItemsOf, AllStripped;
    items, after := items0, before;
    assert list[..0] == [] && gone + [] == gone;
    for k := 0 to |list|
      invariant items == ItemsOf(context, gone + list[..k])
      invariant after == AllStripped(m, earlier + (gone + list[..k]))
    {
      var e := list[k];
      ghost var es := gone + list[..k];
      assert gone + list[..k + 1] == es + [e];
      OneMoreItem(context, m, earlier, es, e);
      items := items + [ItemOf(context, e)];
      after := after[e.0 := Stripped(e.1)];
    }
    assert list[..|list|] == list;
  }

  lemma NoItemsYet(context: Text)
    ensures ItemsOf(context, []) == [] && EntriesIn([]) == []
  {
  }

  lemma OneMoreList(lists: seq<(Text, seq<Entry>)>, list: (Text, seq<Entry>))
    ensures EntriesIn(lists + [list]) == EntriesIn(lists) + list.1
  {
    assert (lists + [list])[..|lists|] == lists;
  }

  lemma OneMoreItem(context: Text, m: Fields, earlier: seq<Entry>, es: seq<Entry>, e: Entry)
    ensures ItemsOf(context, es + [e]) == ItemsOf(context, es) + [ItemOf(context, e)]
    ensures AllStripped(m, earlier + (es + [e])) == AllStripped(m, earlier + es)[e.0 := Stripped(e.1)]
  {
    hide ItemOf, Stripped;
    Regrouped(earlier, es, [e]);
    var all := (earlier + es) + [e];
    assert all[..|all| - 1] == earlier + es && all[|all| - 1] == e;
  }

  // ---------------------------------------------------------------- parsing

  /** `fixSelfKey`: from left to right the identity between two dots stays, at the very end it gets a dot behind it. */
  function FixSelfKey(key: Text, uuid: Text): Text
    decreases |key|
  {
    var self := [DOT] + uuid;
    if self + [DOT] <= key then self + [DOT] + FixSelfKey(key[|uuid| + 2..], uuid)
    else if key == self then self + [DOT]
    else if key == [] then []
    else [key[0]] + FixSelfKey(key[1..], uuid)
  }

  /** `removeEnd` of a dot. */
  function WithoutEndDot(t: Text): Text {
    if t != [] && t[|t| - 1] == DOT then t[..|t| - 1] else t
  }

  function InContext(context: Text, path: Text): Text {
    if path == [] then context else context + [DOT] + path
  }

  /** The entry that an item of an update becomes; items without path or value are passed over. */
  function Parsed(update: Fields, item: Json, context: Text, now: Text): Result<Option<Entry>> {
    if item.Null? then Ok(None)
    else if !item.Obj? then Err(Unsupported)
    else if PATH !in item.fields then Ok(None)
    else
      var path :- AsKey(item.fields[PATH]);
      var source :- if SOURCE_REF in update then AsKey(update[SOURCE_REF]) else Ok(UNKNOWN);
      var time :- if TIMESTAMP in update then AsKey(update[TIMESTAMP]) else Ok(now);
      var named := if SOURCE_REF in update then item.fields[SOURCE_REF := Str(source)] else item.fields;
      var e := named[TIMESTAMP := Str(time)] - {PATH};
      Ok(if VALUE in e then Some((InContext(context, path) + DOT_VALUES_DOT + source, Obj(e))) else None)
  }

  function PutParsed(temp: Fields, update: Fields, items: seq<Json>, context: Text, now: Text): Result<Fields> {
    if items == [] then Ok(temp)
    else
      var n := |items| - 1;
      var before :- PutParsed(temp, update, items[..n], context, now);
      var e :- Parsed(update, items[n], context, now);
      Ok(if e.Some? then before[e.value.0 := e.value.1] else before)
  }

  function UpdateParsed(temp: Fields, update: Json, context: Text, now: Text): Result<Fields> {
    if !update.Obj? then Err(Unsupported)
    else if VALUES !in update.fields then Err(NullPointer)
    else if !update.fields[VALUES].Arr? then Err(Unsupported)
    else PutParsed(temp, update.fields, update.fields[VALUES].items, context, now)
  }

  /** The entry that a put becomes. */
  function PutEntry(put: Json, context: Text, now: Text): Result<Option<Entry>> {
    if put.Null? then Ok(None)
    else if !put.Obj? then Err(Unsupported)
    else if PATH !in put.fields then Ok(None)
    else
      var path :- AsKey(put.fields[PATH]);
      var sourced := if SOURCE_REF in put.fields then put.fields else put.fields[SOURCE_REF := Str(UNKNOWN)];
      var timed := if TIMESTAMP in sourced then sourced else sourced[TIMESTAMP := Str(now)];
      var e := timed - {PATH};
      if VALUE !in e then Ok(None)
      else
        var source :- AsKey(sourced[SOURCE_REF]);
        Ok(Some((InContext(context, path) + DOT_VALUES_DOT + source, Obj(e))))
  }

  /** One element of an array of updates or puts. */
  function ElementParsed(temp: Fields, kind: Text, element: Json, context: Text, now: Text): Result<Fields> {
    if kind == PUT then
      var e :- PutEntry(element, context, now);
      Ok(if e.Some? then temp[e.value.0 := e.value.1] else temp)
    else UpdateParsed(temp, element, context, now)
  }

  function AllParsed(temp: Fields, kind: Text, elements: seq<Json>, context: Text, now: Text): Result<Fields> {
    if elements == [] then Ok(temp)
    else
      var n := |elements| - 1;
      var before :- AllParsed(temp, kind, elements[..n], context, now);
      ElementParsed(before, kind, elements[n], context, now)
  }

  /** The array under a name of the delta, if there is one. */
  function SectionParsed(temp: Fields, kind: Text, node: Fields, context: Text, now: Text): Result<Fields> {
    if kind !in node then Ok(temp)
    else if !node[kind].Arr? then Err(Unsupported)
    else AllParsed(temp, kind, node[kind].items, context, now)
  }

  predicate IsDelta(node: Fields) {
    CONTEXT in node && (UPDATES in node || PUT in node || GET in node || CONFIG in node)
  }

  predicate IsSubscribe(node: Fields) {
    CONTEXT in node && (SUBSCRIBE in node || UNSUBSCRIBE in node)
  }

  /** `parseDelta`: none, the Java null, for what is no delta. */
  function DeltaParsed(node: Json, temp: Fields, uuid: Text, now: Text): Result<Option<Fields>> {
    if node.Null? then Ok(Some(temp))
    else if !node.Obj? then Err(Unsupported)
    else if VESSELS in node.fields || !IsDelta(node.fields) || IsSubscribe(node.fields) || GET in node.fields then Ok(None)
    else
      var context :- AsKey(node.fields[CONTEXT]);
      var ctx := WithoutEndDot(FixSelfKey(context, uuid));
      var updated :- SectionParsed(temp, UPDATES, node.fields, ctx, now);
      var put :- SectionParsed(updated, PUT, node.fields, ctx, now);
      var configured :- SectionParsed(put, CONFIG, node.fields, ctx, now);
      Ok(Some(configured))
  }

  method ParseUpdate(temp: Fields, update: Json, context: Text, now: Text) returns (r: Result<Fields>)
    ensures r == UpdateParsed(temp, update, context, now)
  {
    if !update.Obj? {
      return Err(Unsupported);
    } else if VALUES !in update.fields {
      return Err(NullPointer);
    } else if !update.fields[VALUES].Arr? {
      return Err(Unsupported);
    }
    hide Parsed, PutParsed;
    var items := update.fields[VALUES].items;
    var after := temp;
    NothingPut(temp, update.fields, context, now);
    assert items[..0] == [];
    for i := 0 to |items|
      invariant PutParsed(temp, update.fields, items[..i], context, now) == Ok(after)
    {
      PutStep(temp, update.fields, items, context, now, i);
      var e := Parsed(update.fields, items[i], context, now);
      if e.Err? {
        ItemFailed(temp, update.fields, items, context, now, i + 1);
        return Err(e.error);
      }
      if e.value.Some? {
        after := after[e.value.value.0 := e.value.value.1];
      }
    }
    assert items[..|items|] == items;
    return Ok(after);
  }

  lemma NothingPut(temp: Fields, update: Fields, context: Text, now: Text)
    ensures PutParsed(temp, update, [], context, now) == Ok(temp)
  {
  }

  lemma PutStep(temp: Fields, update: Fields, items: seq<Json>, context: Text, now: Text, i: nat)
    requires i < |items| && PutParsed(temp, update, items[..i], context, now).Ok?
    ensures var before, e := PutParsed(temp, update, items[..i], context, now).value, Parsed(update, items[i], context, now);
            PutParsed(temp, update, items[..i + 1], context, now) ==
            if e.Err? then Err(e.error) else Ok(if e.value.Some? then before[e.value.value.0 := e.value.value.1] else before)
  {
    hide Parsed;
    assert items[..i + 1][..i] == items[..i];
  }

  lemma {:induction false} ItemFailed(temp: Fields, update: Fields, items: seq<Json>, context: Text, now: Text, i: nat)
    requires i <= |items| && PutParsed(temp, update, items[..i], context, now).Err?
    ensures PutParsed(temp, update, items, context, now) == PutParsed(temp, update, items[..i], context, now)
    decreases |items| - i
  {
    hide Parsed;
    if i == |items| {
      assert items[..i] == items;
    } else {
      assert items[..i + 1][..i] == items[..i];
      ItemFailed(temp, update, items, context, now, i + 1);
    }
  }

  method ParsePut(temp: Fields, put: Json, context: Text, now: Text) returns (r: Result<Fields>)
    ensures r == ElementParsed(temp, PUT, put, context, now)
  {
    var e :- PutEntry(put, context, now);
    r := Ok(if e.Some? then temp[e.value.0 := e.value.1] else temp);
  }

  method ParseSection(temp: Fields, kind: Text, node: Fields, context: Text, now: Text) returns (r: Result<Fields>)
    ensures r == SectionParsed(temp, kind, node, context, now)
  {
    if kind !in node {
      return Ok(temp);
    } else if !node[kind].Arr? {
      return Err(Unsupported);
    }
    hide ElementParsed;
    var elements := node[kind].items;
    var after := temp;
    for i := 0 to |elements|
      invariant AllParsed(temp, kind, elements[..i], context, now) == Ok(after)
    {
      assert elements[..i + 1][..i] == elements[..i];
      var next;
      if kind == PUT {
        next := ParsePut(after, elements[i], context, now);
      } else {
        next := ParseUpdate(after, elements[i], context, now);
        ElementIsUpdate(after, kind, elements[i], context, now);
      }
      if next.Err? {
        ElementFailed(temp, kind, elements, context, now, i + 1);
        return next;
      }
      after := next.value;
    }
    assert elements[..|elements|] == elements;
    return Ok(after);
  }

  lemma ElementIsUpdate(temp: Fields, kind: Text, element: Json, context: Text, now: Text)
    requires kind != PUT
    ensures ElementParsed(temp, kind, element, context, now) == UpdateParsed(temp, element, context, now)
  {
  }

  lemma {:induction false} ElementFailed(temp: Fields, kind: Text, elements: seq<Json>, context: Text, now: Text,
      i: nat)
    requires i <= |elements| && AllParsed(temp, kind, elements[..i], context, now).Err?
    ensures AllParsed(temp, kind, elements, context, now) == AllParsed(temp, kind, elements[..i], context, now)
    decreases |elements| - i
  {
    hide ElementParsed;
    if i == |elements| {
      assert elements[..i] == elements;
    } else {
      assert elements[..i + 1][..i] == elements[..i];
      ElementFailed(temp, kind, elements, context, now, i + 1);
    }
  }

  method ParseDelta(node: Json, temp: Fields, uuid: Text, now: Text) returns (r: Result<Option<Fields>>)
    ensures r == DeltaParsed(node, temp, uuid, now)
  {
    if node.Null? {
      return Ok(Some(temp));
    } else if !node.Obj? {
      return Err(Unsupported);
    } else if VESSELS in node.fields || !IsDelta(node.fields) || IsSubscribe(node.fields) || GET in node.fields {
      return Ok(None);
    }
    hide SectionParsed;
    var context :- AsKey(node.fields[CONTEXT]);
    var ctx := WithoutEndDot(FixSelfKey(context, uuid));
    var after :- ParseSection(temp, UPDATES, node.fields, ctx, now);
    after :- ParseSection(after, PUT, node.fields, ctx, now);
    after :- ParseSection(after, CONFIG, node.fields, ctx, now);
    return Ok(Some(after));
  }
}
