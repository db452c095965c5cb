/** What single puts and single updates become: the key they are filed under, and the entry there. */
module DeltaPuts {
  import opened Units
  import opened JsonValues
  import opened ReaderSpec
  import opened SignalKKeys
  import opened FullFormat
  import opened DeltaFormat
  import opened DeltaRoundTrip

  /** The context of a vessel. */
  function VesselContext(name: Text): Text {
    Joined([VESSELS, name])
  }

  /** The key of a value of a vessel by its path and its source. */
  function ValueKey(name: Text, path: seq<Text>, source: Text): Text {
    Joined([VESSELS, name] + path + [VALUES, source])
  }

  lemma ContextIsVessel(name: Text)
    requires IsSegment(name)
    ensures IsVessel(VesselContext(name))
  {
    assert [VESSELS, name][1..] == [name] && Joined([name]) == name;
    assert IsSegment(name) && VesselContext(name) == VESSELS + [DOT] + name;
  }

  lemma {:induction false} JoinedBoth(p: seq<Text>, q: seq<Text>)
    requires p != [] && q != []
    ensures Joined(p + q) == Joined(p) + [DOT] + Joined(q)
  {
    if |p| == 1 {
      assert (p + q)[1..] == q;
    } else {
      assert (p + q)[1..] == p[1..] + q;
      JoinedBoth(p[1..], q);
      Regrouped(p[0] + [DOT], Joined(p[1..]) + [DOT], Joined(q));
      Regrouped(p[0] + [DOT], Joined(p[1..]), [DOT]);
    }
  }

  lemma KeyIsValueKey(name: Text, path: seq<Text>, source: Text)
    requires IsSegment(name) && (path == [] || IsPath(path))
    ensures InContext(VesselContext(name), Joined(path)) + DOT_VALUES_DOT + source == ValueKey(name, path, source)
  {
    var head, tail := [VESSELS, name], [VALUES, source];
    assert tail[1..] == [source];
    assert Joined(tail) == VALUES + [DOT] + source;
    var front := InContext(VesselContext(name), Joined(path));
    assert front == Joined(head + path) by {
      if path == [] {
        assert head + path == head;
      } else {
        SplitJoined(path);
        JoinedBoth(head, path);
      }
    }
    JoinedBoth(head + path, tail);
    hide Joined;
    Regrouped(front, [DOT], VALUES + [DOT] + source);
    Regrouped([DOT], VALUES + [DOT], source);
    Regrouped([DOT], VALUES, [DOT]);
    Regrouped(front, DOT_VALUES_DOT, source);
  }

  // ---------------------------------------------------------------- puts

  /** The source of a put, `unknown` if it names none. */
  function SourceNamed(fields: Fields): Result<Text> {
    if SOURCE_REF in fields then AsKey(fields[SOURCE_REF]) else Ok(UNKNOWN)
  }

  /** A put with a value, below a path. */
  predicate IsPut(path: seq<Text>, put: Fields) {
    (path == [] || IsPath(path)) && PATH in put && put[PATH] == Str(Joined(path)) && VALUE in put
  }

  /** A put with its marks, but for its path; the source and the time that it lacks are filled in. */
  function PutFilled(put: Fields, now: Text): Json {
    Obj(map[SOURCE_REF := Str(UNKNOWN), TIMESTAMP := Str(now)] + put - {PATH})
  }

  lemma PutBecomes(name: Text, path: seq<Text>, put: Fields, now: Text)
    requires IsSegment(name) && IsPut(path, put) && SourceNamed(put).Ok?
    ensures PutEntry(Obj(put), VesselContext(name), now)
            == Ok(Some((ValueKey(name, path, SourceNamed(put).value), PutFilled(put, now))))
  {
    KeyIsValueKey(name, path, SourceNamed(put).value);
    hide Joined, InContext, ValueKey, VesselContext;
    assert |PATH| == 4 && |VALUE| == 5 && |SOURCE_REF| == 7 && |TIMESTAMP| == 9;
    var sourced := if SOURCE_REF in put then put else put[SOURCE_REF := Str(UNKNOWN)];
    var timed := if TIMESTAMP in sourced then sourced else sourced[TIMESTAMP := Str(now)];
    assert timed == map[SOURCE_REF := Str(UNKNOWN), TIMESTAMP := Str(now)] + put;
  }

  datatype Put = Put(path: seq<Text>, fields: Fields)

  predicate ArePuts(puts: seq<Put>) {
    forall i :: 0 <= i < |puts| ==> IsPut(puts[i].path, puts[i].fields) && SourceNamed(puts[i].fields).Ok?
  }

  /** The puts of a vessel put into a map one after the other. */
  function AfterPuts(temp: Fields, name: Text, puts: seq<Put>, now: Text): Fields
    requires ArePuts(puts)
  {
    if puts == [] then temp
    else
      var n := |puts| - 1;
      AfterPuts(temp, name, puts[..n], now)
        [ValueKey(name, puts[n].path, SourceNamed(puts[n].fields).value) := PutFilled(puts[n].fields, now)]
  }

  function PutElements(puts: seq<Put>): (js: seq<Json>)
    ensures |js| == |puts| && forall i :: 0 <= i < |js| ==> js[i] == Obj(puts[i].fields)
  {
    seq(|puts|, i requires 0 <= i < |puts| => Obj(puts[i].fields))
  }

  lemma {:induction false} PutsParse(temp: Fields, name: Text, puts: seq<Put>, now: Text)
    requires IsSegment(name) && ArePuts(puts)
    ensures AllParsed(temp, PUT, PutElements(puts), VesselContext(name), now) == Ok(AfterPuts(temp, name, puts, now))
  {
    hide PutEntry, ValueKey, VesselContext, IsPut, SourceNamed, PutFilled;
    if puts != [] {
      var n := |puts| - 1;
      PutsParse(temp, name, puts[..n], now);
      assert PutElements(puts)[..n] == PutElements(puts[..n]);
      PutBecomes(name, puts[n].path, puts[n].fields, now);
    }
  }

  /**
   * `parseDelta` of the puts of a vessel: each is filed under its own path and source, with its marks as sent, or `unknown`
   * and the time of the call.
   */
  lemma PutsAreFiled(name: Text, puts: seq<Put>, temp: Fields, uuid: Text, now: Text)
    requires IsSegment(name) && ArePuts(puts)
    ensures DeltaParsed(Obj(map[PUT := Arr(PutElements(puts)), CONTEXT := Str(VesselContext(name))]), temp, uuid, now)
            == Ok(Some(AfterPuts(temp, name, puts, now)))
  {
    ContextIsVessel(name);
    var context := VesselContext(name);
    hide DeltaParsed, AllParsed, VesselContext, IsVessel, FixSelfKey, WithoutEndDot, ArePuts;
    VesselEnds(context);
    ContextKept(context, uuid);
    PutsParse(temp, name, puts, now);
    OneSection(PUT, Arr(PutElements(puts)), context, temp, uuid, now);
  }

  // ---------------------------------------------------------------- updates

  /** An item with a value, below a path. */
  function ItemFilled(item: Fields, update: Fields, source: Text, time: Text): Json {
    Obj(item + (if SOURCE_REF in update then map[SOURCE_REF := Str(source)] else map[]) + map[TIMESTAMP := Str(time)] - {PATH})
  }

  function TimeNamed(fields: Fields, now: Text): Result<Text> {
    if TIMESTAMP in fields then AsKey(fields[TIMESTAMP]) else Ok(now)
  }

  lemma ItemBecomes(name: Text, path: seq<Text>, item: Fields, update: Fields, now: Text)
    requires IsSegment(name) && IsPut(path, item) && SourceNamed(update).Ok? && TimeNamed(update, now).Ok?
    ensures Parsed(update, Obj(item), VesselContext(name), now)
            == Ok(Some((ValueKey(name, path, SourceNamed(update).value),
                        ItemFilled(item, update, SourceNamed(update).value, TimeNamed(update, now).value))))
  {
    var source, time := SourceNamed(update).value, TimeNamed(update, now).value;
    KeyIsValueKey(name, path, source);
    hide Joined, InContext, ValueKey, VesselContext;
    assert |PATH| == 4 && |VALUE| == 5 && |SOURCE_REF| == 7 && |TIMESTAMP| == 9;
    var named := if SOURCE_REF in update then item[SOURCE_REF := Str(source)] else item;
    assert named[TIMESTAMP := Str(time)] == item + (if SOURCE_REF in update then map[SOURCE_REF := Str(source)] else map[])
      + map[TIMESTAMP := Str(time)];
  }

  /**
   * `parseDelta` of one item of one update of a vessel: the source and the time are those of the update; without a source the
   * key says `unknown`, and the entry names none; without a time it is that of the call.
   */
  lemma ItemIsFiled(name: Text, path: seq<Text>, item: Fields, marks: Fields, kind: Text, temp: Fields, uuid: Text, now: Text)
    requires IsSegment(name) && IsPut(path, item) && SourceNamed(marks).Ok? && TimeNamed(marks, now).Ok?
    requires kind == UPDATES || kind == CONFIG
    ensures var update := Obj(marks[VALUES := Arr([Obj(item)])]);
            DeltaParsed(Obj(map[kind := Arr([update]), CONTEXT := Str(VesselContext(name))]), temp, uuid, now)
            == Ok(Some(temp[ValueKey(name, path, SourceNamed(marks).value) :=
                            ItemFilled(item, marks, SourceNamed(marks).value, TimeNamed(marks, now).value)]))
  {
    ContextIsVessel(name);
    var context := VesselContext(name);
    var update := marks[VALUES := Arr([Obj(item)])];
    assert |VALUES| == 6 && |SOURCE_REF| == 7 && |TIMESTAMP| == 9 && |PUT| == 3 && |UPDATES| == 7 && |CONFIG| == 6;
    ItemBecomes(name, path, item, update, now);
    hide DeltaParsed, VesselContext, IsVessel, FixSelfKey, WithoutEndDot, Parsed, ValueKey, IsPut;
    VesselEnds(context);
    ContextKept(context, uuid);
    assert [Obj(item)][..0] == [] && [Obj(update)][..0] == [];
    assert PutParsed(temp, update, [], context, now) == Ok(temp);
    assert AllParsed(temp, kind, [], context, now) == Ok(temp);
    ElementIsUpdate(temp, kind, Obj(update), context, now);
    OneSection(kind, Arr([Obj(update)]), context, temp, uuid, now);
  }

  // ---------------------------------------------------------------- messages

  /** A message is none, and the map stays, exactly if it lacks a context or a section, or asks for something. */
  lemma NoDelta(node: Fields, temp: Fields, uuid: Text, now: Text)
    ensures DeltaParsed(Obj(node), temp, uuid, now) == Ok(None) <==>
            || Chars("vessels") in node || Chars("context") !in node
            || (Chars("updates") !in node && Chars("put") !in node && Chars("config") !in node)
            || Chars("subscribe") in node || Chars("unsubscribe") in node || Chars("get") in node
  {
    WordsSpelled();
    hide Chars, FixSelfKey, SectionParsed, AsKey;
  }

  /** What `fixSelfKey` makes of a key: the key, or the key and a dot if it ends with the identity. */
  predicate IsFixed(key: Text, uuid: Text, fixed: Text) {
    fixed == key || (fixed == key + [DOT] && EndsWith(key, [DOT] + uuid))
  }

  lemma FixedBehind(a: Text, b: Text, uuid: Text, fixed: Text)
    requires IsFixed(b, uuid, fixed)
    ensures IsFixed(a + b, uuid, a + fixed)
  {
    EndsLater(a, b, [DOT] + uuid);
    hide EndsWith;
    Regrouped(a, b, [DOT]);
  }

  /** `fixSelfKey` changes nothing but for a dot behind an identity at the end. */
  lemma {:induction false} SelfStays(key: Text, uuid: Text)
    ensures IsFixed(key, uuid, FixSelfKey(key, uuid))
    decreases |key|
  {
    var self := [DOT] + uuid;
    if self + [DOT] <= key {
      var rest := key[|uuid| + 2..];
      assert key == (self + [DOT]) + rest;
      SelfStays(rest, uuid);
      hide IsFixed;
      FixedBehind(self + [DOT], rest, uuid, FixSelfKey(rest, uuid));
    } else if key == self {
      assert key[0..] == key;
    } else if key != [] {
      assert key == [key[0]] + key[1..];
      SelfStays(key[1..], uuid);
      hide IsFixed;
      FixedBehind([key[0]], key[1..], uuid, FixSelfKey(key[1..], uuid));
    }
  }

  lemma EndsLater(a: Text, b: Text, part: Text)
    ensures EndsWith(b, part) ==> EndsWith(a + b, part)
  {
    if EndsWith(b, part) {
      assert (a + b)[|a + b| - |part|..] == b[|b| - |part|..];
    }
  }

  /** So the context of a message is the one sent, without a dot at its end. */
  lemma ContextSent(key: Text, uuid: Text)
    requires uuid != [] && uuid[|uuid| - 1] != DOT
    ensures WithoutEndDot(FixSelfKey(key, uuid)) == if key != [] && key[|key| - 1] == 0x2E then key[..|key| - 1] else key
  {
    hide FixSelfKey;
    SelfStays(key, uuid);
    if FixSelfKey(key, uuid) == key + [DOT] {
      assert key[|key| - 1] == ([DOT] + uuid)[|uuid|] == uuid[|uuid| - 1];
    }
  }

  /** An update with one item. */
  datatype OneItem = OneItem(path: seq<Text>, item: Fields, marks: Fields)

  predicate IsOneItem(x: OneItem, now: Text) {
    IsPut(x.path, x.item) && SourceNamed(x.marks).Ok? && TimeNamed(x.marks, now).Ok?
  }

  function AfterItem(temp: Fields, name: Text, x: OneItem, now: Text): Fields
    requires IsOneItem(x, now)
  {
    temp[ValueKey(name, x.path, SourceNamed(x.marks).value) :=
         ItemFilled(x.item, x.marks, SourceNamed(x.marks).value, TimeNamed(x.marks, now).value)]
  }

  lemma UpdateOfOne(temp: Fields, kind: Text, name: Text, x: OneItem, now: Text)
    requires IsSegment(name) && IsOneItem(x, now) && kind != PUT
    ensures AllParsed(temp, kind, [Obj(x.marks[VALUES := Arr([Obj(x.item)])])], VesselContext(name), now) == Ok(AfterItem(temp, name, x, now))
  {
    var context := VesselContext(name);
    var update := x.marks[VALUES := Arr([Obj(x.item)])];
    assert |VALUES| == 6 && |SOURCE_REF| == 7 && |TIMESTAMP| == 9;
    ItemBecomes(name, x.path, x.item, update, now);
    hide VesselContext, Parsed, ValueKey, IsPut;
    assert [Obj(x.item)][..0] == [] && [Obj(update)][..0] == [];
    assert PutParsed(temp, update, [], context, now) == Ok(temp);
    assert AllParsed(temp, kind, [], context, now) == Ok(temp);
    ElementIsUpdate(temp, kind, Obj(update), context, now);
  }

  /** The sections of a message are taken in turn: first the updates, then the puts, and the configuration last. */
  lemma SectionsInTurn(name: Text, first: OneItem, puts: seq<Put>, last: OneItem, temp: Fields, uuid: Text, now: Text)
    requires IsSegment(name) && IsOneItem(first, now) && ArePuts(puts) && IsOneItem(last, now)
    ensures DeltaParsed(Obj(map[UPDATES := Arr([Obj(first.marks[VALUES := Arr([Obj(first.item)])])]),
                                PUT := Arr(PutElements(puts)),
                                CONFIG := Arr([Obj(last.marks[VALUES := Arr([Obj(last.item)])])]),
                                CONTEXT := Str(VesselContext(name))]), temp, uuid, now)
            == Ok(Some(AfterItem(AfterPuts(AfterItem(temp, name, first, now), name, puts, now), name, last, now)))
  {
    hide AllParsed, VesselContext, IsVessel, FixSelfKey, WithoutEndDot, ArePuts, IsOneItem, AfterItem, AfterPuts, PutElements,
      DeltaParsed;
    ContextIsVessel(name);
    var context := VesselContext(name);
    VesselEnds(context);
    ContextKept(context, uuid);
    var updated := AfterItem(temp, name, first, now);
    var put := AfterPuts(updated, name, puts, now);
    UpdateOfOne(temp, UPDATES, name, first, now);
    PutsParse(updated, name, puts, now);
    NamesDiffer();
    UpdateOfOne(put, CONFIG, name, last, now);
    ThreeSections([Obj(first.marks[VALUES := Arr([Obj(first.item)])])], PutElements(puts),
                  [Obj(last.marks[VALUES := Arr([Obj(last.item)])])], context, temp, uuid, now);
  }

  lemma ThreeSections(updates: seq<Json>, puts: seq<Json>, config: seq<Json>, context: Text, temp: Fields, uuid: Text, now: Text)
    requires WithoutEndDot(FixSelfKey(context, uuid)) == context
    ensures var updated := AllParsed(temp, UPDATES, updates, context, now);
            var put := if updated.Ok? then AllParsed(updated.value, PUT, puts, context, now) else updated;
            var configured := if put.Ok? then AllParsed(put.value, CONFIG, config, context, now) else put;
            DeltaParsed(Obj(map[UPDATES := Arr(updates), PUT := Arr(puts), CONFIG := Arr(config), CONTEXT := Str(context)]), temp, uuid, now)
            == if configured.Ok? then Ok(Some(configured.value)) else Err(configured.error)
  {
    hide AllParsed, FixSelfKey, WithoutEndDot;
    NamesDiffer();
    var node := map[UPDATES := Arr(updates), PUT := Arr(puts), CONFIG := Arr(config), CONTEXT := Str(context)];
    assert node.Keys == {UPDATES, PUT, CONFIG, CONTEXT};
    hide UPDATES, PUT, CONFIG, CONTEXT, GET, VESSELS, SUBSCRIBE, UNSUBSCRIBE;
  }

  lemma NamesDiffer()
    ensures |UPDATES| == 7 && |PUT| == 3 && |CONFIG| == 6 && |CONTEXT| == 7 && |GET| == 3 && |VESSELS| == 7
    ensures |SUBSCRIBE| == 9 && |UNSUBSCRIBE| == 11
    ensures UPDATES[0] == 0x75 && CONTEXT[0] == 0x63 && PUT[0] == 0x70 && GET[0] == 0x67 && VESSELS[0] == 0x76
  {
  }
}
