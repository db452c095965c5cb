/** The full format: `Util.setJson`, `mapToFull` and `parseFull`. */
module FullFormat {
  import opened Units
  import opened JsonValues
  import opened ReaderSpec
  import opened Pointers
  import opened ArrayMerges
  import opened SignalKKeys

  type Fields = map<Text, Json>

  // ---------------------------------------------------------------- setting a value in a tree

  /** Below the fields, along the path: missing objects are made, the last one gets the value. */
  function SetAt(fields: Fields, path: seq<Text>, v: Json): Result<Fields>
    requires path != []
    decreases |path|
  {
    var k := path[0];
    if |path| == 1 then Ok(fields[k := v])
    else
      var child := if k in fields then fields[k] else Obj(map[]);
      if !child.Obj? then Err(Unsupported)
      else
        var below :- SetAt(child.fields, path[1..], v);
        Ok(fields[k := Obj(below)])
  }

  /** `setJson` on an object. A path of nothing but dots has no segment to go to. */
  function SetJson(root: Fields, path: Text, v: Json): Result<Fields> {
    var segments := Split(path, DOT);
    if path == [] then Ok(root)
    else if segments == [] then Err(OutOfBounds)
    else SetAt(root, segments, v)
  }

  // ---------------------------------------------------------------- from the map to the tree

  /** The configured identity and version; an unset property is the JSON null. */
  datatype Settings = Settings(uuid: Option<Text>, version: Option<Text>)

  function Make(o: Option<Text>): Json {
    match o
    case None => Null
    case Some(s) => Str(s)
  }

  function Heading(settings: Settings): Fields {
    map[SELF := Make(settings.uuid), VERSION := Make(settings.version)]
  }

  /** The path and the value that an entry puts into the tree, if it does. */
  function Placed(key: Text, v: Json): Option<(Text, Json)> {
    var path := SubstringBefore(key, DOT_VALUES_DOT);
    if EndsWith(key, ATTR) then None
    else if v.Obj? && SENTENCE in v.fields then Some((path + [DOT] + SENTENCE, v.fields[SENTENCE]))
    else Some((path, v))
  }

  /** `keys` are the keys of the map in their order. */
  predicate Ascending(keys: seq<Text>) {
    forall i, j :: 0 <= i < j < |keys| ==> CompareText(keys[i], keys[j]) < 0
  }

  ghost predicate Lists(keys: seq<Text>, m: Fields) {
    Ascending(keys) && (forall k :: k in keys <==> k in m)
  }

  function FullOf(root: Fields, keys: seq<Text>, m: Fields): Result<Fields>
    requires forall k :: k in keys ==> k in m
  {
    if keys == [] then Ok(root)
    else
      var n := |keys| - 1;
      var before :- FullOf(root, keys[..n], m);
      match Placed(keys[n], m[keys[n]])
      case None => Ok(before)
      case Some((path, v)) => SetJson(before, path, v)
  }

  method MapToFull(settings: Settings, keys: seq<Text>, m: Fields) returns (r: Result<Json>)
    requires Lists(keys, m)
    ensures r.Ok? <==> FullOf(Heading(settings), keys, m).Ok?
    ensures r.Ok? ==> r.value == Obj(FullOf(Heading(settings), keys, m).value)
  {
    hide SetJson, Placed, Ascending;
    var root := Heading(settings);
    for i := 0 to |keys|
      invariant FullOf(Heading(settings), keys[..i], m) == Ok(root)
    {
      assert keys[..i + 1][..i] == keys[..i] && keys[..i + 1][i] == keys[i];
      match Placed(keys[i], m[keys[i]])
      case None =>
      case Some((path, v)) =>
        var next := SetJson(root, path, v);
        if next.Err? {
          StaysFailed(Heading(settings), keys, m, i + 1);
          return Err(next.error);
        }
        root := next.value;
    }
    assert keys[..|keys|] == keys;
    return Ok(Obj(root));
  }

  lemma {:induction false} StaysFailed(root: Fields, keys: seq<Text>, m: Fields, i: nat)
    requires i <= |keys| && (forall k :: k in keys ==> k in m) && FullOf(root, keys[..i], m).Err?
    ensures FullOf(root, keys, m).Err?
    decreases |keys| - i
  {
    hide SetJson, Placed;
    if i == |keys| {
      assert keys[..i] == keys;
    } else {
      assert keys[..i + 1][..i] == keys[..i];
      StaysFailed(root, keys, m, i + 1);
    }
  }

  // ---------------------------------------------------------------- from the tree to the map

  predicate HasText(fields: Fields, name: Text) {
    name in fields ==> AsKey(fields[name]).Ok?
  }

  /** Nothing below ends in an exception: what should be text is, and what should be an object is an object or null. */
  predicate Parses(json: Json)
    decreases json, 1
  {
    json.Null? || (json.Obj? && forall k :: k in json.fields ==> FieldParses(json.fields[k]))
  }

  predicate FieldParses(v: Json)
    decreases v, 2
  {
    v.Obj? ==>
      if VALUE in v.fields then
        && HasText(v.fields, SOURCE_REF) && HasText(v.fields, TIMESTAMP)
        && (VALUES in v.fields ==> Parses(v.fields[VALUES]))
      else Parses(v)
  }

  function TextOr(fields: Fields, name: Text, default: Text): Text {
    if name in fields && AsKey(fields[name]).Ok? then AsKey(fields[name]).value else default
  }

  /** The entry that a value object becomes. */
  function EntryOf(fields: Fields, now: Text): Json
    requires VALUE in fields
  {
    Obj(map[VALUE := fields[VALUE], SOURCE_REF := Str(TextOr(fields, SOURCE_REF, UNKNOWN)),
            TIMESTAMP := Str(TextOr(fields, TIMESTAMP, now))])
  }

  /** What the field with a value itself is written as; below `.values` value objects are kept as they are. */
  function ValueWritten(now: Text, prefix: Text, k: Text, v: Json): (Text, Json)
    requires v.Obj? && VALUE in v.fields
  {
    if Contains(prefix, [DOT] + VALUES) then (prefix + k, v)
    else (prefix + k + DOT_VALUES_DOT + TextOr(v.fields, SOURCE_REF, UNKNOWN), EntryOf(v.fields, now))
  }

  /** All entries written for the fields of an object, and for one field. */
  function Written(now: Text, json: Json, prefix: Text): set<(Text, Json)>
    decreases json, 1
  {
    if !json.Obj? then {}
    else set k, w | k in json.fields && w in FieldWritten(now, prefix, k, json.fields[k]) :: w
  }

  function FieldWritten(now: Text, prefix: Text, k: Text, v: Json): set<(Text, Json)>
    decreases v, 2
  {
    if !v.Obj? then {(prefix + k, v)}
    else if VALUE in v.fields then
      {ValueWritten(now, prefix, k, v)}
      + if VALUES in v.fields then Written(now, v.fields[VALUES], prefix + k + DOT_VALUES_DOT) else {}
    else Written(now, v, prefix + k + [DOT])
  }

  /** The map after some entries are put, in any order: an entry wins over what was there before. */
  ghost predicate Puts(before: Fields, written: set<(Text, Json)>, after: Fields) {
    && (forall k :: k in after ==> (k, after[k]) in written || (k in before && after[k] == before[k]))
    && (forall k :: k in before ==> k in after)
    && forall k, v :: (k, v) in written ==> k in after && (k, after[k]) in written
  }

  lemma PutsThen(a: Fields, v: set<(Text, Json)>, b: Fields, w: set<(Text, Json)>, c: Fields)
    requires Puts(a, v, b) && Puts(b, w, c)
    ensures Puts(a, v + w, c)
  {
  }

  lemma PutsOne(before: Fields, key: Text, v: Json)
    ensures Puts(before, {(key, v)}, before[key := v])
  {
  }

  /** The entries of some of the fields. */
  function SomeWritten(now: Text, fields: Fields, prefix: Text, done: set<Text>): set<(Text, Json)> {
    set k, w | k in done && k in fields && w in FieldWritten(now, prefix, k, fields[k]) :: w
  }

  lemma OneMoreWritten(now: Text, fields: Fields, prefix: Text, done: set<Text>, k: Text)
    requires k in fields
    ensures SomeWritten(now, fields, prefix, done + {k}) == SomeWritten(now, fields, prefix, done) + FieldWritten(now, prefix, k, fields[k])
  {
    hide FieldWritten;
  }

  lemma AllWritten(now: Text, fields: Fields, prefix: Text)
    ensures SomeWritten(now, fields, prefix, fields.Keys) == Written(now, Obj(fields), prefix)
  {
  }

  /** `parseFull` of an object into a map; its fields come in any order. */
  method ParseFull(now: Text, json: Json, before: Fields, prefix: Text) returns (r: Result<Fields>)
    ensures r.Ok? <==> Parses(json)
    ensures r.Ok? ==> Puts(before, Written(now, json, prefix), r.value)
    decreases json, 1
  {
    if json.Null? {
      return Ok(before);
    } else if !json.Obj? {
      return Err(Unsupported);
    }
    hide Puts, FieldWritten, FieldParses;
    var after := before;
    var rest := json.fields.Keys;
    ghost var all := json.fields.Keys;
    PutsNothing(before);
    assert SomeWritten(now, json.fields, prefix, all - rest) == {};
    while rest != {}
      invariant rest <= all
      invariant Puts(before, SomeWritten(now, json.fields, prefix, all - rest), after)
      invariant forall k :: k in all - rest ==> FieldParses(json.fields[k])
    {
      var k :| k in rest;
      var next := ParseField(now, k, json.fields[k], after, prefix);
      if next.Err? {
        return next;
      }
      OneMoreWritten(now, json.fields, prefix, all - rest, k);
      PutsThen(before, SomeWritten(now, json.fields, prefix, all - rest), after,
               FieldWritten(now, prefix, k, json.fields[k]), next.value);
      assert all - (rest - {k}) == (all - rest) + {k};
      after := next.value;
      rest := rest - {k};
    }
    assert all - {} == all;
    AllWritten(now, json.fields, prefix);
    return Ok(after);
  }

  lemma PutsNothing(before: Fields)
    ensures Puts(before, {}, before)
  {
  }

  method ParseField(now: Text, k: Text, v: Json, before: Fields, prefix: Text) returns (r: Result<Fields>)
    ensures r.Ok? <==> FieldParses(v)
    ensures r.Ok? ==> Puts(before, FieldWritten(now, prefix, k, v), r.value)
    decreases v, 2
  {
    hide Puts, Contains;
    if !v.Obj? {
      PutsOne(before, prefix + k, v);
      return Ok(before[prefix + k := v]);
    }
    if VALUE in v.fields {
      var source := if SOURCE_REF in v.fields then AsKey(v.fields[SOURCE_REF]) else Ok(UNKNOWN);
      var time := if TIMESTAMP in v.fields then AsKey(v.fields[TIMESTAMP]) else Ok(now);
      if source.Err? || time.Err? {
        return Err(Unsupported);
      }
      var tmp := Obj(map[VALUE := v.fields[VALUE], SOURCE_REF := Str(source.value), TIMESTAMP := Str(time.value)]);
      var after := if Contains(prefix, [DOT] + VALUES) then before[prefix + k := v]
                   else before[prefix + k + DOT_VALUES_DOT + source.value := tmp];
      var (key, entry) := ValueWritten(now, prefix, k, v);
      PutsOne(before, key, entry);
      assert after == before[key := entry];
      if VALUES in v.fields {
        r := ParseFull(now, v.fields[VALUES], after, prefix + k + DOT_VALUES_DOT);
        if r.Ok? {
          PutsThen(before, {(key, entry)}, after, Written(now, v.fields[VALUES], prefix + k + DOT_VALUES_DOT), r.value);
        }
        return;
      }
      assert {(key, entry)} + {} == {(key, entry)};
      return Ok(after);
    }
    r := ParseFull(now, v, before, prefix + k + [DOT]);
  }
}
