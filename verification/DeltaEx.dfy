/** `mapToDeltaMapEx`: the values of all listings by time and source, the times in order. */
module DeltaEx {
  import opened Units
  import opened JsonValues
  import opened ReaderSpec
  import opened ArrayMerges
  import opened ArrayMerging
  import opened SignalKKeys
  import opened FullFormat
  import opened DeltaFormat

  /** A listed value; `item` is what is kept of it. */
  datatype Sample = Sample(time: Text, source: Text, item: Json)

  type Samples = map<Text, map<Text, seq<Json>>>

  function TextAt(fields: Fields, name: Text): Result<Text> {
    if name !in fields then Err(NullPointer) else AsKey(fields[name])
  }

  function SampleOf(v: Json): Result<Sample> {
    if !v.Obj? then Err(Unsupported)
    else
      var time :- TextAt(v.fields, TIMESTAMP);
      var path :- TextAt(v.fields, PATH);
      var source :- TextAt(v.fields, SOURCE_REF);
      if VALUE !in v.fields then Err(NullPointer)
      else Ok(Sample(time, source, Obj(map[PATH := Str(path), VALUE := v.fields[VALUE]])))
  }

  /** The values listed by one entry. */
  function ValuesIn(v: Json): Result<seq<Json>> {
    if !v.Obj? then Err(Unsupported)
    else if VALUES !in v.fields then Err(NullPointer)
    else if !v.fields[VALUES].Arr? then Err(Unsupported)
    else Ok(v.fields[VALUES].items)
  }

  function SamplesOf(vs: seq<Json>): Result<seq<Sample>> {
    if vs == [] then Ok([])
    else
      var n := |vs| - 1;
      var before :- SamplesOf(vs[..n]);
      var last :- SampleOf(vs[n]);
      Ok(before + [last])
  }

  /** All listed values as they come. */
  function Arrivals(keys: seq<Text>, m: Fields): Result<seq<Sample>>
    requires forall k :: k in keys ==> k in m
  {
    if keys == [] then Ok([])
    else
      var n := |keys| - 1;
      var before :- Arrivals(keys[..n], m);
      var vs :- ValuesIn(m[keys[n]]);
      var last :- SamplesOf(vs);
      Ok(before + last)
  }

  /** The items of one time and source, as they came. */
  function Selected(samples: seq<Sample>, time: Text, source: Text): seq<Json> {
    if samples == [] then []
    else
      var s := samples[|samples| - 1];
      Selected(samples[..|samples| - 1], time, source) + if s.time == time && s.source == source then [s.item] else []
  }

  function ListAt(updates: Samples, time: Text, source: Text): seq<Json> {
    Get(Get(updates, time, map[]), source, [])
  }

  /** Every list holds the items of its time and source in the order they came, and no list or map is there for nothing. */
  ghost predicate Collects(updates: Samples, samples: seq<Sample>) {
    && (forall t, s :: ListAt(updates, t, s) == Selected(samples, t, s))
    && (forall t :: t in updates ==> updates[t] != map[])
    && forall t, s :: t in updates && s in updates[t] ==> updates[t][s] != []
  }

  /** The times in the order asked for. */
  predicate InOrder(times: seq<Text>, ascending: bool) {
    forall i, j :: 0 <= i < j < |times| ==> if ascending then CompareText(times[i], times[j]) < 0 else CompareText(times[j], times[i]) < 0
  }

  // ---------------------------------------------------------------- said of the documents

  /** The value listed at a position of an entry is an object with these texts as its time and its source. */
  predicate IsOf(v: Json, time: Text, source: Text) {
    && v.Obj? && {TIMESTAMP, SOURCE_REF, PATH, VALUE} <= v.fields.Keys
    && AsKey(v.fields[TIMESTAMP]) == Ok(time) && AsKey(v.fields[SOURCE_REF]) == Ok(source) && AsKey(v.fields[PATH]).Ok?
  }

  /** What is kept of it: its path and its value. */
  predicate Keeps(item: Json, v: Json) {
    v.Obj? && {PATH, VALUE} <= v.fields.Keys && item.Obj? && item.fields.Keys == {PATH, VALUE} && item.fields[VALUE] == v.fields[VALUE]
    && item.fields[PATH].Str? && AsKey(v.fields[PATH]) == Ok(item.fields[PATH].s)
  }

  /** An entry lists values, and each of them has a time, a path and a source that are text, and a value. */
  predicate IsListing(v: Json) {
    && v.Obj? && VALUES in v.fields && v.fields[VALUES].Arr?
    && forall i :: 0 <= i < |v.fields[VALUES].items| ==> IsSomeones(v.fields[VALUES].items[i])
  }

  predicate IsSomeones(v: Json) {
    && v.Obj? && {TIMESTAMP, SOURCE_REF, PATH, VALUE} <= v.fields.Keys
    && AsKey(v.fields[TIMESTAMP]).Ok? && AsKey(v.fields[SOURCE_REF]).Ok? && AsKey(v.fields[PATH]).Ok?
  }

  function Listed(v: Json): seq<Json>
    requires IsListing(v)
  {
    v.fields[VALUES].items
  }

  predicate AllListings(keys: seq<Text>, m: Fields) {
    forall k :: 0 <= k < |keys| ==> keys[k] in m && IsListing(m[keys[k]])
  }

  /** The entry by its key, and the place in its list. */
  datatype Position = Position(entry: nat, place: nat)

  predicate IsAt(keys: seq<Text>, m: Fields, p: Position, time: Text, source: Text)
    requires AllListings(keys, m)
  {
    p.entry < |keys| && p.place < |Listed(m[keys[p.entry]])| && IsOf(Listed(m[keys[p.entry]])[p.place], time, source)
  }

  predicate Precedes(p: Position, q: Position) {
    p.entry < q.entry || (p.entry == q.entry && p.place < q.place)
  }

  /** The items of the list are those of the given positions, one by one. */
  predicate KeptFrom(keys: seq<Text>, m: Fields, ps: seq<Position>, time: Text, source: Text, list: seq<Json>)
    requires AllListings(keys, m)
  {
    && |ps| == |list|
    && (forall n :: 0 <= n < |ps| ==> IsAt(keys, m, ps[n], time, source) && Keeps(list[n], Listed(m[keys[ps[n].entry]])[ps[n].place]))
    && forall i, j :: 0 <= i < j < |ps| ==> Precedes(ps[i], ps[j])
  }

  /** The list has the items of all positions with that time and source, in the order of the positions. */
  ghost predicate HoldsAll(keys: seq<Text>, m: Fields, time: Text, source: Text, list: seq<Json>)
    requires AllListings(keys, m)
  {
    exists ps: seq<Position> :: KeptFrom(keys, m, ps, time, source, list)
      && forall p :: IsAt(keys, m, p, time, source) ==> p in ps
  }

  lemma SampleIs(v: Json)
    ensures SampleOf(v).Ok? <==> IsSomeones(v)
    ensures SampleOf(v).Ok? ==> var x := SampleOf(v).value; Keeps(x.item, v) && forall t, s :: IsOf(v, t, s) <==> x.time == t && x.source == s
  {
  }

  lemma {:induction false} SamplesAre(vs: seq<Json>)
    ensures SamplesOf(vs).Ok? <==> forall i :: 0 <= i < |vs| ==> IsSomeones(vs[i])
    ensures SamplesOf(vs).Ok? ==> |SamplesOf(vs).value| == |vs| && forall i :: 0 <= i < |vs| ==> SampleOf(vs[i]) == Ok(SamplesOf(vs).value[i])
  {
    hide SampleOf, IsSomeones;
    if vs != [] {
      SamplesAre(vs[..|vs| - 1]);
      SampleIs(vs[|vs| - 1]);
    }
  }

  lemma {:induction false} ArrivalsIff(keys: seq<Text>, m: Fields)
    requires forall k :: k in keys ==> k in m
    ensures Arrivals(keys, m).Ok? <==> AllListings(keys, m)
  {
    hide SamplesOf, IsSomeones;
    if keys != [] {
      var n := |keys| - 1;
      ArrivalsIff(keys[..n], m);
      assert AllListings(keys, m) <==> AllListings(keys[..n], m) && IsListing(m[keys[n]]);
      if ValuesIn(m[keys[n]]).Ok? {
        SamplesAre(ValuesIn(m[keys[n]]).value);
      }
    }
  }

  /** The first `n` of the values listed by entry `k`, as far as they have that time and source. */
  function PlacesIn(vs: seq<Json>, n: nat, k: nat, time: Text, source: Text): (ps: seq<Position>)
    requires n <= |vs|
    ensures forall i :: 0 <= i < |ps| ==> ps[i].entry == k && ps[i].place < n && IsOf(vs[ps[i].place], time, source)
    ensures forall i, j :: 0 <= i < j < |ps| ==> ps[i].place < ps[j].place
    ensures forall i: nat :: i < n && IsOf(vs[i], time, source) ==> Position(k, i) in ps
  {
    if n == 0 then []
    else PlacesIn(vs, n - 1, k, time, source) + if IsOf(vs[n - 1], time, source) then [Position(k, n - 1)] else []
  }

  /** The positions in the first `n` of the entries. */
  function Places(keys: seq<Text>, n: nat, m: Fields, time: Text, source: Text): (ps: seq<Position>)
    requires AllListings(keys, m) && n <= |keys|
    ensures forall i :: 0 <= i < |ps| ==> ps[i].entry < n && IsAt(keys, m, ps[i], time, source)
    ensures forall i, j :: 0 <= i < j < |ps| ==> Precedes(ps[i], ps[j])
    ensures forall p: Position :: p.entry < n && IsAt(keys, m, p, time, source) ==> p in ps
  {
    if n == 0 then []
    else
      var vs := Listed(m[keys[n - 1]]);
      PlacesMet(keys, n, m, time, source);
      Places(keys, n - 1, m, time, source) + PlacesIn(vs, |vs|, n - 1, time, source)
  }

  lemma PlacesMet(keys: seq<Text>, n: nat, m: Fields, time: Text, source: Text)
    requires AllListings(keys, m) && 0 < n <= |keys|
    ensures var vs := Listed(m[keys[n - 1]]);
            forall p: Position :: p.entry == n - 1 ==>
              (IsAt(keys, m, p, time, source) <==> p in PlacesIn(vs, |vs|, n - 1, time, source))
  {
    hide IsOf, IsListing;
    forall p: Position | p.entry == n - 1
      ensures IsAt(keys, m, p, time, source) <==> p in PlacesIn(Listed(m[keys[n - 1]]), |Listed(m[keys[n - 1]])|, n - 1, time, source)
    {
      assert p == Position(n - 1, p.place);
    }
  }

  function Item(v: Json): Json {
    if SampleOf(v).Ok? then SampleOf(v).value.item else Null
  }

  lemma SelectedPush(before: seq<Sample>, last: Sample, time: Text, source: Text)
    ensures Selected(before + [last], time, source) ==
            Selected(before, time, source) + if last.time == time && last.source == source then [last.item] else []
  {
    assert (before + [last])[..|before|] == before;
  }

  lemma SamplesPush(vs: seq<Json>, n: nat)
    requires n < |vs| && SamplesOf(vs[..n]).Ok? && SampleOf(vs[n]).Ok?
    ensures SamplesOf(vs[..n + 1]) == Ok(SamplesOf(vs[..n]).value + [SampleOf(vs[n]).value])
  {
    hide SampleOf;
    assert vs[..n + 1][..n] == vs[..n];
  }

  lemma {:induction false} SelectedIn(vs: seq<Json>, n: nat, k: nat, time: Text, source: Text)
    requires n <= |vs| && forall i :: 0 <= i < |vs| ==> IsSomeones(vs[i])
    ensures SamplesOf(vs[..n]).Ok?
    ensures var ps := PlacesIn(vs, n, k, time, source);
            var list := Selected(SamplesOf(vs[..n]).value, time, source);
            |list| == |ps| && forall i :: 0 <= i < |ps| ==> list[i] == Item(vs[ps[i].place])
  {
    hide SampleOf, IsOf, IsSomeones, Keeps, Selected;
    if n == 0 {
      SelectedNothing(time, source);
    } else {
      SelectedIn(vs, n - 1, k, time, source);
      SampleIs(vs[n - 1]);
      SamplesPush(vs, n - 1);
      SelectedPush(SamplesOf(vs[..n - 1]).value, SampleOf(vs[n - 1]).value, time, source);
    }
  }

  lemma {:induction false} SelectedBoth(a: seq<Sample>, b: seq<Sample>, time: Text, source: Text)
    ensures Selected(a + b, time, source) == Selected(a, time, source) + Selected(b, time, source)
  {
    if b == [] {
      assert a + b == a;
    } else {
      var n := |b| - 1;
      assert (a + b)[..|a + b| - 1] == a + b[..n];
      SelectedBoth(a, b[..n], time, source);
    }
  }

  lemma ArrivalsPush(keys: seq<Text>, m: Fields, n: nat)
    requires n < |keys| && AllListings(keys, m)
    requires var vs := Listed(m[keys[n]]); SamplesOf(vs).Ok? && (forall k :: k in keys[..n] ==> k in m) && Arrivals(keys[..n], m).Ok?
    ensures forall k :: k in keys[..n + 1] ==> k in m
    ensures Arrivals(keys[..n + 1], m) == Ok(Arrivals(keys[..n], m).value + SamplesOf(Listed(m[keys[n]])).value)
  {
    hide SamplesOf, IsSomeones;
    assert keys[..n + 1][..n] == keys[..n];
  }

  lemma {:induction false} SelectedAt(keys: seq<Text>, n: nat, m: Fields, time: Text, source: Text)
    requires AllListings(keys, m) && n <= |keys|
    ensures (forall k :: k in keys[..n] ==> k in m) && Arrivals(keys[..n], m).Ok?
    ensures var ps := Places(keys, n, m, time, source);
            var list := Selected(Arrivals(keys[..n], m).value, time, source);
            |list| == |ps| && forall i :: 0 <= i < |ps| ==> list[i] == Item(Listed(m[keys[ps[i].entry]])[ps[i].place])
  {
    hide SamplesOf, IsSomeones, Selected, IsOf, Item, Arrivals, Precedes;
    if n == 0 {
      NoArrivals(m);
      SelectedNothing(time, source);
    } else {
      var vs := Listed(m[keys[n - 1]]);
      SelectedAt(keys, n - 1, m, time, source);
      SelectedIn(vs, |vs|, n - 1, time, source);
      assert vs[..|vs|] == vs;
      ArrivalsPush(keys, m, n - 1);
      var a, b := Arrivals(keys[..n - 1], m).value, SamplesOf(vs).value;
      SelectedBoth(a, b, time, source);
      var was, more := Places(keys, n - 1, m, time, source), PlacesIn(vs, |vs|, n - 1, time, source);
      var ps, list := Places(keys, n, m, time, source), Selected(a + b, time, source);
      assert ps == was + more;
      hide Places, PlacesIn;
      forall i | 0 <= i < |ps|
        ensures list[i] == Item(Listed(m[keys[ps[i].entry]])[ps[i].place])
      {
        if i < |was| {
          assert ps[i] == was[i] && list[i] == Selected(a, time, source)[i];
        } else {
          assert ps[i] == more[i - |was|] && list[i] == Selected(b, time, source)[i - |was|];
        }
      }
    }
  }

  lemma NoArrivals(m: Fields)
    ensures Arrivals([], m) == Ok([])
  {
  }

  /** The list of a time and a source, read off the documents. */
  lemma SelectedHoldsAll(keys: seq<Text>, m: Fields, time: Text, source: Text)
    requires (forall k :: k in keys ==> k in m) && AllListings(keys, m)
    ensures Arrivals(keys, m).Ok? && HoldsAll(keys, m, time, source, Selected(Arrivals(keys, m).value, time, source))
  {
    hide Selected, Arrivals, SampleOf, IsOf, Keeps, IsListing, Item;
    SelectedAt(keys, |keys|, m, time, source);
    assert keys[..|keys|] == keys;
    var ps, list := Places(keys, |keys|, m, time, source), Selected(Arrivals(keys, m).value, time, source);
    forall n | 0 <= n < |ps|
      ensures Keeps(list[n], Listed(m[keys[ps[n].entry]])[ps[n].place])
    {
      KeptItem(Listed(m[keys[ps[n].entry]])[ps[n].place], time, source);
    }
    KeptAll(keys, m, ps, time, source, list);
  }

  lemma CollectedHoldsAll(keys: seq<Text>, m: Fields, updates: Samples)
    requires (forall k :: k in keys ==> k in m) && AllListings(keys, m)
    requires Arrivals(keys, m).Ok? && Collects(updates, Arrivals(keys, m).value)
    ensures forall t, s :: HoldsAll(keys, m, t, s, ListAt(updates, t, s))
  {
    hide Selected, Arrivals, HoldsAll, IsListing, ListAt;
    forall t, s
      ensures HoldsAll(keys, m, t, s, ListAt(updates, t, s))
    {
      SelectedHoldsAll(keys, m, t, s);
    }
  }

  /** The positions of the values listed with a time, a source, a path and a value. */
  function PositionsOf(keys: seq<Text>, m: Fields, time: Text, source: Text, path: Text, value: Json): set<Position>
    requires AllListings(keys, m)
  {
    set k: nat, i: nat | k < |keys| && i < |Listed(m[keys[k]])| && IsOf(Listed(m[keys[k]])[i], time, source)
                         && AsKey(Listed(m[keys[k]])[i].fields[PATH]) == Ok(path)
                         && Listed(m[keys[k]])[i].fields[VALUE] == value :: Position(k, i)
  }

  lemma PositionIs(keys: seq<Text>, m: Fields, p: Position, time: Text, source: Text, path: Text, value: Json)
    requires AllListings(keys, m)
    ensures p in PositionsOf(keys, m, time, source, path, value) <==>
      && IsAt(keys, m, p, time, source) && AsKey(Listed(m[keys[p.entry]])[p.place].fields[PATH]) == Ok(path)
      && Listed(m[keys[p.entry]])[p.place].fields[VALUE] == value
  {
    hide IsListing;
    assert p == Position(p.entry, p.place);
  }

  /** How often an item is in the list: the number of positions with its time, source, path and value. */
  lemma ItemCounts(keys: seq<Text>, m: Fields, time: Text, source: Text, list: seq<Json>, path: Text, value: Json)
    requires AllListings(keys, m) && HoldsAll(keys, m, time, source, list)
    ensures multiset(list)[Obj(map[PATH := Str(path), VALUE := value])] == |PositionsOf(keys, m, time, source, path, value)|
  {
    hide IsListing, PositionsOf, Keeps, IsOf, IsAt;
    var ps :| KeptFrom(keys, m, ps, time, source, list) && forall p :: IsAt(keys, m, p, time, source) ==> p in ps;
    ItemCountsAt(keys, m, ps, time, source, list, path, value);
  }

  lemma ItemCountsAt(keys: seq<Text>, m: Fields, ps: seq<Position>, time: Text, source: Text, list: seq<Json>, path: Text,
      value: Json)
    requires AllListings(keys, m) && KeptFrom(keys, m, ps, time, source, list)
    requires forall p :: IsAt(keys, m, p, time, source) ==> p in ps
    ensures multiset(list)[Obj(map[PATH := Str(path), VALUE := value])] == |PositionsOf(keys, m, time, source, path, value)|
  {
    var item := Obj(map[PATH := Str(path), VALUE := value]);
    AllDiffer(keys, m, ps, time, source, list);
    hide *;
    forall p
      ensures p in PositionsOf(keys, m, time, source, path, value) <==> exists n :: 0 <= n < |ps| && list[n] == item && ps[n] == p
    {
      PositionTaken(keys, m, ps, time, source, list, path, value, p);
    }
    CountsAll(ps, list, item, PositionsOf(keys, m, time, source, path, value));
    CountIsSize(ps, list, item, PositionsOf(keys, m, time, source, path, value));
  }

  lemma CountsAll(ps: seq<Position>, list: seq<Json>, x: Json, all: set<Position>)
    requires |ps| == |list| && forall i, j :: 0 <= i < j < |ps| ==> ps[i] != ps[j]
    requires forall p :: p in all <==> exists n :: 0 <= n < |ps| && list[n] == x && ps[n] == p
    ensures AreCounted(ps, list, x, all)
  {
  }

  lemma AllDiffer(keys: seq<Text>, m: Fields, ps: seq<Position>, time: Text, source: Text, list: seq<Json>)
    requires AllListings(keys, m) && KeptFrom(keys, m, ps, time, source, list)
    ensures |ps| == |list| && forall i, j :: 0 <= i < j < |ps| ==> ps[i] != ps[j]
  {
    hide IsListing, Keeps, IsAt;
  }

  lemma PositionTaken(keys: seq<Text>, m: Fields, ps: seq<Position>, time: Text, source: Text, list: seq<Json>, path: Text,
      value: Json, p: Position)
    requires AllListings(keys, m) && KeptFrom(keys, m, ps, time, source, list)
    requires IsAt(keys, m, p, time, source) ==> p in ps
    ensures p in PositionsOf(keys, m, time, source, path, value) <==>
            exists n :: 0 <= n < |ps| && list[n] == Obj(map[PATH := Str(path), VALUE := value]) && ps[n] == p
  {
    hide IsListing, PositionsOf, Keeps, IsOf;
    PositionIs(keys, m, p, time, source, path, value);
    if p in ps {
      var n :| 0 <= n < |ps| && ps[n] == p;
      assert IsAt(keys, m, ps[n], time, source);
      KeptIs(list[n], Listed(m[keys[p.entry]])[p.place], path, value);
      OnlyAt(ps, n);
    }
  }

  lemma OnlyAt(ps: seq<Position>, n: nat)
    requires n < |ps| && forall i, j :: 0 <= i < j < |ps| ==> Precedes(ps[i], ps[j])
    ensures forall i :: 0 <= i < |ps| && ps[i] == ps[n] ==> i == n
  {
  }

  lemma KeptIs(item: Json, v: Json, path: Text, value: Json)
    requires Keeps(item, v)
    ensures item == Obj(map[PATH := Str(path), VALUE := value]) <==> AsKey(v.fields[PATH]) == Ok(path) && v.fields[VALUE] == value
  {
    assert |PATH| == 4 && |VALUE| == 5;
    var wanted := map[PATH := Str(path), VALUE := value];
    if AsKey(v.fields[PATH]) == Ok(path) && v.fields[VALUE] == value {
      assert item.fields == wanted;
    }
  }

  /** The set has exactly the positions whose item it is, each of them once in the list. */
  ghost predicate AreCounted(ps: seq<Position>, list: seq<Json>, x: Json, all: set<Position>) {
    && |ps| == |list| && (forall i, j :: 0 <= i < j < |ps| ==> ps[i] != ps[j])
    && forall p :: p in all <==> exists n :: 0 <= n < |ps| && list[n] == x && ps[n] == p
  }

  lemma AllButLast(ps: seq<Position>, list: seq<Json>, x: Json, all: set<Position>)
    requires AreCounted(ps, list, x, all) && ps != []
    ensures var n := |ps| - 1;
            |list| == n + 1 && AreCounted(ps[..n], list[..n], x, all - {ps[n]})
            && |all| == |all - {ps[n]}| + if list[n] == x then 1 else 0
  {
    var n := |ps| - 1;
    if list[n] == x {
      assert ps[n] in all;
    } else {
      assert all - {ps[n]} == all;
    }
    forall p
      ensures p in all - {ps[n]} <==> exists i :: 0 <= i < n && list[..n][i] == x && ps[..n][i] == p
    {
      if i :| 0 <= i < n && list[..n][i] == x && ps[..n][i] == p {
        assert list[i] == x && ps[i] == p;
      }
      if p in all - {ps[n]} {
        var i :| 0 <= i < |ps| && list[i] == x && ps[i] == p;
        assert list[..n][i] == x && ps[..n][i] == p;
      }
    }
  }

  lemma NoneCounted(list: seq<Json>, x: Json, all: set<Position>)
    requires AreCounted([], list, x, all)
    ensures list == [] && all == {}
  {
  }

  lemma {:induction false} CountIsSize(ps: seq<Position>, list: seq<Json>, x: Json, all: set<Position>)
    requires AreCounted(ps, list, x, all)
    ensures multiset(list)[x] == |all|
  {
    hide AreCounted;
    if ps == [] {
      NoneCounted(list, x, all);
    } else {
      var n := |ps| - 1;
      AllButLast(ps, list, x, all);
      CountIsSize(ps[..n], list[..n], x, all - {ps[n]});
      assert list == list[..n] + [list[n]];
      CountOneMore(list[..n], list[n], x);
    }
  }

  lemma KeptAll(keys: seq<Text>, m: Fields, ps: seq<Position>, time: Text, source: Text, list: seq<Json>)
    requires AllListings(keys, m) && KeptFrom(keys, m, ps, time, source, list)
    requires forall p :: IsAt(keys, m, p, time, source) ==> p in ps
    ensures HoldsAll(keys, m, time, source, list)
  {
  }

  lemma KeptItem(v: Json, time: Text, source: Text)
    requires IsOf(v, time, source)
    ensures Keeps(Item(v), v)
  {
    SampleIs(v);
  }

  method MapToDeltaMapEx(keys: seq<Text>, m: Fields, ascending: bool) returns (r: Result<(Samples, seq<Text>)>)
    requires Lists(keys, m)
    ensures r.Ok? <==> Arrivals(keys, m).Ok?
    ensures r.Ok? ==> Collects(r.value.0, Arrivals(keys, m).value)
    ensures r.Ok? <==> AllListings(keys, m)
    ensures r.Ok? ==> forall t, s :: HoldsAll(keys, m, t, s, ListAt(r.value.0, t, s))
    ensures r.Ok? ==> InOrder(r.value.1, ascending) && forall t :: t in r.value.1 <==> t in r.value.0
  {
    hide Collects, Ascending, ValuesIn, IsListing, ListAt, HoldsAll;
    ArrivalsIff(keys, m);
    var updates: Samples := map[];
    ghost var samples: seq<Sample> := [];
    CollectsNothing();
    for i := 0 to |keys|
      invariant Arrivals(keys[..i], m) == Ok(samples)
      invariant Collects(updates, samples)
    {
      assert keys[..i + 1][..i] == keys[..i] && keys[..i + 1][i] == keys[i];
      var vs := ValuesIn(m[keys[i]]);
      if vs.Err? {
        ArrivalsFailed(keys, m, i + 1);
        return Err(vs.error);
      }
      var next := AddAll(updates, samples, vs.value);
      if next.Err? {
        ArrivalsFailed(keys, m, i + 1);
        return Err(next.error);
      }
      updates := next.value;
      samples := samples + SamplesOf(vs.value).value;
    }
    assert keys[..|keys|] == keys;
    CollectedHoldsAll(keys, m, updates);
    var times := SortedTimes(updates.Keys, ascending);
    return Ok((updates, times));
  }

  /** One listing. */
  method AddAll(updates: Samples, ghost samples: seq<Sample>, vs: seq<Json>) returns (r: Result<Samples>)
    requires Collects(updates, samples)
    ensures r.Ok? <==> SamplesOf(vs).Ok?
    ensures r.Ok? ==> Collects(r.value, samples + SamplesOf(vs).value)
  {
    hide Collects, SampleOf;
    var after := updates;
    assert samples + [] == samples;
    for j := 0 to |vs|
      invariant SamplesOf(vs[..j]).Ok? && Collects(after, samples + SamplesOf(vs[..j]).value)
    {
      assert vs[..j + 1][..j] == vs[..j] && vs[..j + 1][j] == vs[j];
      var sample := SampleOf(vs[j]);
      if sample.Err? {
        SamplesFailed(vs, j + 1);
        return Err(sample.error);
      }
      var s := sample.value;
      var byTime := if s.time in after then after[s.time] else map[];
      var list := if s.source in byTime then byTime[s.source] else [];
      ghost var before := samples + SamplesOf(vs[..j]).value;
      OneMoreSample(after, before, s);
      Regrouped(samples, SamplesOf(vs[..j]).value, [s]);
      after := after[s.time := byTime[s.source := list + [s.item]]];
    }
    assert vs[..|vs|] == vs;
    return Ok(after);
  }

  lemma CollectsNothing()
    ensures Collects(map[], [])
  {
  }

  lemma OneMoreSample(updates: Samples, samples: seq<Sample>, s: Sample)
    requires Collects(updates, samples)
    ensures var byTime := Get(updates, s.time, map[]);
            Collects(updates[s.time := byTime[s.source := Get(byTime, s.source, []) + [s.item]]], samples + [s])
  {
    var byTime := Get(updates, s.time, map[]);
    var byTime' := byTime[s.source := Get(byTime, s.source, []) + [s.item]];
    var after := updates[s.time := byTime'];
    assert (samples + [s])[..|samples|] == samples;
    assert s.source in byTime';
    forall t, src
      ensures ListAt(after, t, src) == Selected(samples + [s], t, src)
    {
      assert ListAt(updates, t, src) == Selected(samples, t, src);
    }
  }

  lemma {:induction false} ArrivalsFailed(keys: seq<Text>, m: Fields, i: nat)
    requires i <= |keys| && (forall k :: k in keys ==> k in m) && Arrivals(keys[..i], m).Err?
    ensures Arrivals(keys, m).Err?
    decreases |keys| - i
  {
    hide ValuesIn, SamplesOf;
    if i == |keys| {
      assert keys[..i] == keys;
    } else {
      assert keys[..i + 1][..i] == keys[..i];
      ArrivalsFailed(keys, m, i + 1);
    }
  }

  lemma {:induction false} SamplesFailed(vs: seq<Json>, i: nat)
    requires i <= |vs| && SamplesOf(vs[..i]).Err?
    ensures SamplesOf(vs).Err?
    decreases |vs| - i
  {
    hide SampleOf;
    if i == |vs| {
      assert vs[..i] == vs;
    } else {
      assert vs[..i + 1][..i] == vs[..i];
      SamplesFailed(vs, i + 1);
    }
  }

  /** No sample is lost or doubled: a list holds an item as often as it arrived for its time and source. */
  lemma {:induction false} SelectedCounts(samples: seq<Sample>, time: Text, source: Text, item: Json)
    ensures multiset(Selected(samples, time, source))[item] == multiset(samples)[Sample(time, source, item)]
  {
    if samples == [] {
      SelectedNothing(time, source);
    } else {
      var n := |samples| - 1;
      var before, last := samples[..n], samples[n];
      SelectedCounts(before, time, source, item);
      SelectedOneMore(samples, time, source);
      hide Selected;
      assert samples == before + [last];
      CountsOneMore(before, last, Selected(before, time, source), Selected(samples, time, source), Sample(time, source, item));
    }
  }

  lemma SelectedNothing(time: Text, source: Text)
    ensures Selected([], time, source) == []
  {
  }

  lemma CountsOneMore(before: seq<Sample>, last: Sample, list: seq<Json>, list': seq<Json>, wanted: Sample)
    requires multiset(list)[wanted.item] == multiset(before)[wanted]
    requires list' == if last.time == wanted.time && last.source == wanted.source then list + [last.item] else list
    ensures multiset(list')[wanted.item] == multiset(before + [last])[wanted]
  {
    CountOneMore(before, last, wanted);
    CountOneMore(list, last.item, wanted.item);
  }

  lemma CountOneMore<T>(s: seq<T>, x: T, y: T)
    ensures multiset(s + [x])[y] == multiset(s)[y] + if x == y then 1 else 0
  {
    assert multiset(s + [x]) == multiset(s) + multiset{x};
  }

  lemma SelectedOneMore(samples: seq<Sample>, time: Text, source: Text)
    requires samples != []
    ensures var n := |samples| - 1;
            Selected(samples, time, source) ==
              if samples[n].time == time && samples[n].source == source
              then Selected(samples[..n], time, source) + [samples[n].item] else Selected(samples[..n], time, source)
  {
  }

  // ---------------------------------------------------------------- ordering the times

  /** The least, or greatest, of some times. */
  ghost predicate IsNext(t: Text, rest: set<Text>, ascending: bool) {
    t in rest && forall u :: u in rest && u != t ==> if ascending then CompareText(t, u) < 0 else CompareText(u, t) < 0
  }

  method SortedTimes(times: set<Text>, ascending: bool) returns (order: seq<Text>)
    ensures InOrder(order, ascending) && forall t :: t in order <==> t in times
  {
    order := [];
    var rest := times;
    while rest != {}
      invariant rest <= times && InOrder(order, ascending)
      invariant forall t :: t in order <==> t in times - rest
      invariant forall i, u :: 0 <= i < |order| && u in rest ==>
                  if ascending then CompareText(order[i], u) < 0 else CompareText(u, order[i]) < 0
    {
      var t := Next(rest, ascending);
      order := order + [t];
      rest := rest - {t};
    }
  }

  method Next(times: set<Text>, ascending: bool) returns (next: Text)
    requires times != {}
    ensures IsNext(next, times, ascending)
  {
    next :| next in times;
    var rest := times - {next};
    while rest != {}
      invariant rest <= times && next in times - rest
      invariant IsNext(next, times - rest, ascending)
    {
      var t :| t in rest;
      if (if ascending then CompareText(t, next) < 0 else CompareText(next, t) < 0) {
        Better(times - rest, next, t, ascending);
        next := t;
      } else {
        Worse(next, t, ascending);
      }
      rest := rest - {t};
    }
    assert times - rest == times;
  }

  lemma Better(seen: set<Text>, next: Text, t: Text, ascending: bool)
    requires IsNext(next, seen, ascending) && if ascending then CompareText(t, next) < 0 else CompareText(next, t) < 0
    ensures IsNext(t, seen + {t}, ascending)
  {
    forall u | u in seen && u != t
      ensures if ascending then CompareText(t, u) < 0 else CompareText(u, t) < 0
    {
      if u != next {
        if ascending {
          TextTransitive(t, next, u);
        } else {
          TextTransitive(u, next, t);
        }
      }
    }
  }

  lemma Worse(next: Text, t: Text, ascending: bool)
    requires next != t && !(if ascending then CompareText(t, next) < 0 else CompareText(next, t) < 0)
    ensures if ascending then CompareText(next, t) < 0 else CompareText(t, next) < 0
  {
    TextFlips(next, t);
    TextDiffers(next, t);
  }

  lemma {:induction false} TextDiffers(s: Text, t: Text)
    requires s != t
    ensures CompareText(s, t) != 0
  {
    if s != [] && t != [] && s[0] == t[0] {
      assert s == [s[0]] + s[1..] && t == [t[0]] + t[1..];
      TextDiffers(s[1..], t[1..]);
    }
  }
}
