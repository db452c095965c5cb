/** `InfluxDbService`: what is written for an entry, the primary source of a path, and the entries read back. */
module Store {
  import opened Units
  import opened JsonValues
  import opened Numbers
  import opened Printer
  import opened ReaderSpec
  import opened Pointers
  import opened SignalKKeys
  import opened FullFormat
  import opened DeltaFormat

  // ---------------------------------------------------------------- the database

  datatype Column = LongValue | DoubleValue | StrValue | NullValue

  /** What a column holds: a 64-bit integer, a double by its text, a string, or a boolean. */
  datatype Cell = Whole(n: int) | Real(literal: Text) | Characters(t: Text) | Flag(b: bool)

  datatype Point = Point(time: int, cells: map<Column, Cell>)

  datatype Series = Series(
    measurement: Text,
    uuid: Option<Text>,
    skey: Text,
    primary: Option<bool>,
    sourceRef: Option<Text>)

  /** The latest point of every series; a point of the same time is written into the one there is. */
  type Points = map<Series, Point>

  function Later(was: Point, p: Point): Point {
    if p.time > was.time then p
    else if p.time == was.time then Point(p.time, was.cells + p.cells)
    else was
  }

  /** The columns of the later point, those of both if they are of the same time, and then the one written last. */
  lemma LaterWins(was: Point, p: Point)
    ensures var r := Later(was, p);
            && r.time == (if p.time > was.time then p.time else was.time)
            && forall c ::
                 && (c in r.cells <==> (p.time >= was.time && c in p.cells) || (p.time <= was.time && c in was.cells))
                 && (c in r.cells ==> r.cells[c] == if p.time >= was.time && c in p.cells then p.cells[c] else was.cells[c])
  {
  }

  function Write(points: Points, s: Series, p: Point): Points {
    points[s := if s in points then Later(points[s], p) else p]
  }

  /**
   * What the model takes from outside: integers come back as doubles, arrays are stored as printed, times are texts outside
   * and numbers inside.
   */
  datatype Client = Client(asDouble: int -> int, printed: Doc -> Text, millis: Text -> Option<int>, iso: int -> Text)

  // ---------------------------------------------------------------- fields

  const TRUE: Text := [0x74, 0x72, 0x75, 0x65]
  const FALSE: Text := [0x66, 0x61, 0x6C, 0x73, 0x65]

  /** A value to save: the Java null, or a JSON value. */
  datatype Saved = JavaNull | Of(doc: Doc)

  function FlagText(b: bool): Text {
    if b then TRUE else FALSE
  }

  /** `getFieldType` and `addPoint`: the column and what goes into it. */
  function FieldOf(client: Client, v: Saved): Option<(Column, Cell)> {
    match v
    case JavaNull => Some((NullValue, Flag(true)))
    case Of(Array(items)) => Some((StrValue, Characters(client.printed(v.doc))))
    case Of(Object(_)) => None
    case Of(Scalar(json)) =>
      match json
      case Null => Some((NullValue, Characters(TRUE)))
      case Bool(b) => Some((StrValue, Characters(FlagText(b))))
      case Str(t) => Some((StrValue, Characters(t)))
      case Int(n) => Some((LongValue, Whole(Wrap(n))))
      case Dec(literal) => Some((DoubleValue, Real(literal)))
      case _ => None
  }

  /** The strings that are read back as something else. */
  predicate LooksLikeArray(t: Text) {
    [OPEN_BRACKET] <= Trim(t) && EndsWith(t, [CLOSE_BRACKET])
  }

  /** `getJsonValue`. */
  function JsonOf(client: Client, p: Point): Result<Json> {
    if LongValue in p.cells && p.cells[LongValue].Whole? then Ok(Int(client.asDouble(p.cells[LongValue].n)))
    else if NullValue in p.cells && p.cells[NullValue].Flag? then Err(ClassCast)
    else if NullValue in p.cells && p.cells[NullValue] == Characters(TRUE) then Ok(Null)
    else if DoubleValue in p.cells && p.cells[DoubleValue].Real? then Ok(Dec(p.cells[DoubleValue].literal))
    else if StrValue in p.cells && p.cells[StrValue].Characters? then
      var t := p.cells[StrValue].t;
      if t == TRUE then Ok(Bool(true))
      else if t == FALSE then Ok(Bool(false))
      else if LooksLikeArray(t) then ReadJson(t)
      else Ok(Str(t))
    else Ok(Null)
  }

  // ---------------------------------------------------------------- the primary source

  datatype Db = Db(points: Points, primaries: map<Text, Text>)

  function PrimaryKey(key: Text): Text {
    SubstringBefore(key, DOT_VALUES_DOT)
  }

  /** `isPrimary`: the first source to ask for a path gets it. */
  function Elected(primaries: map<Text, Text>, key: Text, source: Text): map<Text, Text> {
    if PrimaryKey(key) in primaries then primaries else primaries[PrimaryKey(key) := source]
  }

  // ---------------------------------------------------------------- saving

  /** A call of `saveData`. */
  datatype Call = Call(key: Text, source: Text, millis: int, v: Saved)

  /** `StringUtils.split`: the pieces that are not empty. */
  function Filled(parts: seq<Text>): seq<Text> {
    if parts == [] then [] else (if parts[0] == [] then [] else [parts[0]]) + Filled(parts[1..])
  }

  function Segments(key: Text): seq<Text> {
    Filled(Pieces(key, DOT))
  }

  predicate IsVesselLike(name: Text) {
    name == VESSELS || name == AIRCRAFT || name == SAR || name == ATON
  }

  /** The series of a call; the primary flag is that of the election. */
  function SeriesOf(path: seq<Text>, primary: bool, source: Text): Series
    requires |path| >= 2
  {
    if path[0] == RESOURCES then Series(path[0], Some(path[1]), Joined(path[1..]), Some(primary), Some(source))
    else if path[0] == SOURCES then Series(path[0], None, Joined(path[1..]), None, Some(path[1]))
    else if path[0] == CONFIG then Series(path[0], Some(path[1]), Joined(path[1..]), None, None)
    else Series(path[0], Some(path[1]), Joined(path[2..]), Some(primary), Some(source))
  }

  /** `saveData`: the database after it, and how it ends. */
  function SaveData(client: Client, db: Db, c: Call): (Db, Outcome) {
    var path := Segments(c.key);
    if c.key == SELF || c.key == VERSION then (db, Ok(()))
    else if path == [] then (db, Err(OutOfBounds))
    else if !IsVesselLike(path[0]) && path[0] !in [RESOURCES, SOURCES, CONFIG] then (db, Ok(()))
    else
      var votes := IsVesselLike(path[0]) || path[0] == RESOURCES;
      // a vessel's source is elected before its identity is read, a resource's after
      if |path| < 2 then (if IsVesselLike(path[0]) then db.(primaries := Elected(db.primaries, c.key, c.source)) else db, Err(OutOfBounds))
      else
        var primaries := if votes then Elected(db.primaries, c.key, c.source) else db.primaries;
        var primary := votes && primaries[PrimaryKey(c.key)] == c.source;
        match FieldOf(client, c.v)
        case None => (db.(primaries := primaries), Err(NullPointer))
        case Some((column, cell)) =>
          (Db(Write(db.points, SeriesOf(path, primary, c.source), Point(c.millis, map[column := cell])), primaries), Ok(()))
  }

  function MemberAt(members: seq<Member>, name: Text): (d: Option<Doc>)
    ensures d.Some? ==> exists i :: 0 <= i < |members| && members[i].doc == d.value
  {
    if members == [] then None
    else if members[0].key == name then Some(members[0].doc)
    else MemberAt(members[1..], name)
  }

  function EachUnder(prefix: Text, members: seq<Member>, source: Text, millis: int): (calls: seq<Call>)
    ensures |calls| == |members|
  {
    seq(|members|, i requires 0 <= i < |members| => Call(prefix + members[i].key, source, millis, Of(members[i].doc)))
  }

  /** The time of an entry by its own timestamp, or the one it is given. */
  function TimeOf(client: Client, v: Doc, default: int): Result<int> {
    if v.Object? && MemberAt(v.members, TIMESTAMP).Some? then
      var text :- AsKey(ValueOf(MemberAt(v.members, TIMESTAMP).value));
      match client.millis(text)
      case None => Err(BadOption)
      case Some(ms) => Ok(ms)
    else Ok(default)
  }

  /** The calls of `saveData` that `save` makes for an entry, up to the exception it may end with. */
  function Calls(client: Client, k: Text, v: Doc, source: Text, millis: int): (seq<Call>, Outcome)
    decreases v, 1
  {
    match v
    case Scalar(json) => ([Call(k, source, millis, if json.Null? then JavaNull else Of(v))], Ok(()))
    case Array(_) => ([Call(k, source, millis, Of(v))], Ok(()))
    case Object(members) =>
      var sentences := match MemberAt(members, SENTENCE)
        case None => []
        case Some(d) => [Call(k + [DOT] + SENTENCE, source, millis, Of(d))];
      var metas := match MemberAt(members, META)
        case None => Result<seq<Call>>.Ok([])
        case Some(Object(ms)) => Ok(EachUnder(k + [DOT] + META + [DOT], ms, source, millis))
        case _ => Err(Unsupported);
      if metas.Err? then (sentences, Err(Unsupported))
      else
        var (nested, end) := match MemberAt(members, VALUES)
          case None => ([], Ok(()))
          case Some(Object(vs)) => NestedCalls(client, k, vs, millis)
          case _ => ([], Err(Unsupported));
        var before := sentences + metas.value + nested;
        if end.Err? then (before, end)
        else
          (match MemberAt(members, VALUE)
           case Some(Object(vs)) => (before + EachUnder(k + [DOT] + VALUE + [DOT], vs, source, millis), Ok(()))
           case Some(d) => (before + [Call(k + [DOT] + VALUE, source, millis, Of(d))], Ok(()))
           case None => (before + [Call(k + [DOT] + VALUE, source, millis, JavaNull)], Ok(())))
  }

  /** The entries under `values`, each by its own source. */
  function NestedCalls(client: Client, k: Text, vs: seq<Member>, millis: int): (seq<Call>, Outcome)
    decreases vs, 0
  {
    if vs == [] then ([], Ok(()))
    else
      var time := TimeOf(client, vs[0].doc, millis);
      if time.Err? then ([], Err(time.error))
      else
        var (calls, end) := Calls(client, k, vs[0].doc, SubstringBefore(vs[0].key, [DOT] + VALUE), time.value);
        if end.Err? then (calls, end)
        else
          var (rest, restEnd) := NestedCalls(client, k, vs[1..], millis);
          (calls + rest, restEnd)
  }

  /** The calls one after the other; the first exception ends the entry. */
  function SaveAll(client: Client, db: Db, calls: seq<Call>): (Db, Outcome) {
    if calls == [] then (db, Ok(()))
    else
      var (before, end) := SaveAll(client, db, calls[..|calls| - 1]);
      if end.Err? then (before, end) else SaveData(client, before, calls[|calls| - 1])
  }

  /** `save` of an entry: its source and its time come from the entry, or else from the key and the clock. */
  function SourceFor(k: Text, v: Doc): Result<Text> {
    var own := if v.Object? then MemberAt(v.members, SOURCE_REF) else None;
    var source :- match own
      case Some(d) => AsKey(ValueOf(d))
      case None => Ok(SubstringAfter(k, DOT_VALUES_DOT));
    Ok(if Blank(source) then SELF else source)
  }

  predicate IsAttribute(k: Text) {
    Contains(k, [DOT] + ATTR)
  }

  function EntrySaved(client: Client, db: Db, k: Text, v: Doc, now: int): (Db, Outcome) {
    if IsAttribute(k) then (db, Ok(()))
    else
      var source := SourceFor(k, v);
      var time := TimeOf(client, v, now);
      if source.Err? then (db, Err(source.error))
      else if time.Err? then (db, Err(time.error))
      else
        var (calls, end) := Calls(client, k, v, source.value, time.value);
        var (after, saved) := SaveAll(client, db, calls);
        (after, if saved.Err? then saved else end)
  }

  // ---------------------------------------------------------------- loading

  function OrNull(o: Option<Text>): Text {
    if o.Some? then o.value else NULL_TEXT
  }

  const NULL_TEXT: Text := [0x6E, 0x75, 0x6C, 0x6C]

  function KeyOfSeries(s: Series): Text {
    s.measurement + [DOT] + OrNull(s.uuid) + [DOT] + s.skey
  }

  /** `getParent`. */
  function ParentAt(m: Fields, k: Text): Json {
    if k in m then m[k] else Obj(map[])
  }

  /** `set` on what may be no object. */
  function Set(v: Json, name: Text, value: Json): Result<Json> {
    if v.Obj? then Ok(Obj(v.fields[name := value])) else Err(Unsupported)
  }

  /** `Util.getJson` one level down, and a field set there. */
  function SetBelow(v: Json, name: Text, sub: Text, value: Json): Result<Json> {
    if !v.Obj? then Err(Unsupported)
    else
      var child := if name in v.fields then v.fields[name] else Obj(map[]);
      var below :- Set(child, sub, value);
      Ok(Obj(v.fields[name := below]))
  }

  /** `extractPrimaryValue`, and `extractValue`, which leaves the source out. */
  function Extracted(client: Client, node: Json, time: int, source: Option<Text>, subkey: Text, v: Json): Result<Json> {
    var timed :- Set(node, TIMESTAMP, Str(client.iso(time)));
    var sourced :- if source.Some? then Set(timed, SOURCE_REF, Str(source.value)) else Ok(timed);
    if Blank(subkey) then Set(sourced, VALUE, v) else SetBelow(sourced, VALUE, subkey, v)
  }

  /** `addAtPath`: the walk never leaves the parent. */
  function AddAtPath(parent: Json, path: seq<Text>, v: Json): Result<Json>
    decreases |path|
  {
    if path == [] then Ok(parent)
    else if |path| == 1 then Set(parent, path[0], v)
    else if !parent.Obj? then Err(Unsupported)
    else AddAtPath(if path[0] in parent.fields then parent else Obj(parent.fields[path[0] := Obj(map[])]), path[1..], v)
  }

  const DOT_VALUE: Text := [DOT] + VALUE
  const DOT_VALUE_DOT: Text := [DOT] + VALUE + [DOT]
  const DOT_META_DOT: Text := [DOT] + META + [DOT]

  /** One series: the key it changes and the new value there. */
  function LoadSeries(client: Client, m: Fields, s: Series, p: Point): Result<Fields> {
    var key := KeyOfSeries(s);
    var v :- JsonOf(client, p);
    var primary := s.primary == Some(true);
    if EndsWith(key, [DOT] + SENTENCE) then
      var parent :- Set(ParentAt(m, SubstringBeforeLast(key, [DOT])), SENTENCE, v);
      Ok(m[SubstringBeforeLast(key, [DOT]) := parent])
    else if Contains(key, DOT_META_DOT) then
      var parentKey := SubstringBeforeLast(key, DOT_META_DOT);
      var parent :- AddAtPath(ParentAt(m, parentKey), [META] + Segments(SubstringAfterLast(key, DOT_META_DOT)), v);
      Ok(m[parentKey := parent])
    else if Contains(key, DOT_VALUES_DOT) then LoadValue(client, m, s, p, v, primary)
    else if EndsWith(key, DOT_VALUE) || Contains(key, DOT_VALUE_DOT) then
      var parentKey := SubstringBeforeLast(key, DOT_VALUE);
      var subkey := SubstringAfterLast(key, DOT_VALUE_DOT);
      if primary && v.Arr? then Err(Unsupported)
      else
        var parent :- Extracted(client, ParentAt(m, parentKey), p.time, if primary then s.sourceRef else None, subkey, v);
        Ok(m[parentKey := parent])
    else Ok(m[key := v])
  }

  /** A series with its source in the key: the primary one fills the parent, the others go under `values`. */
  function LoadValue(client: Client, m: Fields, s: Series, p: Point, v: Json, primary: bool): Result<Fields> {
    var key := KeyOfSeries(s);
    var parentKey := SubstringBeforeLast(key, DOT_VALUES_DOT);
    var valKey := SubstringAfterLast(key, DOT_VALUES_DOT);
    var subkey := SubstringAfterLast(valKey, DOT_VALUE_DOT);
    var parent := ParentAt(m, parentKey);
    if primary then
      if v.Arr? then Err(Unsupported)
      else
        var filled :- Extracted(client, parent, p.time, s.sourceRef, subkey, v);
        Ok(m[parentKey := filled])
    else
      var source := SubstringBeforeLast(valKey, [DOT]);
      if !parent.Obj? then Err(Unsupported)
      else
        var values := ParentAt(parent.fields, VALUES);
        if !values.Obj? then Err(Unsupported)
        else
          var sub :- Extracted(client, ParentAt(values.fields, source), p.time, None, subkey, v);
          Ok(m[parentKey := Obj(parent.fields[VALUES := Obj(values.fields[source := sub])])])
  }

  /** The series of the answer in their order. */
  function LoadAll(client: Client, m: Fields, points: Points, order: seq<Series>): Result<Fields>
    requires forall s :: s in order ==> s in points
  {
    if order == [] then Ok(m)
    else
      var n := |order| - 1;
      var before :- LoadAll(client, m, points, order[..n]);
      LoadSeries(client, before, order[n], points[order[n]])
  }

  // ---------------------------------------------------------------- the service

  class InfluxDbService {
    var points: Points
    var primaryMap: map<Text, Text>

    constructor ()
      ensures points == map[] && primaryMap == map[]
    {
      points, primaryMap := map[], map[];
    }

    ghost function View(): Db
      reads this
    {
      Db(points, primaryMap)
    }

    /** The answer says whether the source is a new one. */
    method SetPrimary(key: Text, source: Text) returns (changed: bool)
      modifies `primaryMap
      ensures primaryMap == old(primaryMap)[PrimaryKey(key) := source]
      ensures changed <==> !(PrimaryKey(key) in old(primaryMap) && old(primaryMap)[PrimaryKey(key)] == source)
    {
      changed := PrimaryKey(key) !in primaryMap || primaryMap[PrimaryKey(key)] != source;
      primaryMap := primaryMap[PrimaryKey(key) := source];
    }

    method IsPrimary(key: Text, source: Text) returns (primary: bool)
      modifies `primaryMap
      ensures primaryMap == Elected(old(primaryMap), key, source)
      ensures primary <==> primaryMap[PrimaryKey(key)] == source
    {
      if PrimaryKey(key) !in primaryMap {
        var _ := SetPrimary(key, source);
        return true;
      }
      return primaryMap[PrimaryKey(key)] == source;
    }

    method Save(client: Client, c: Call) returns (end: Outcome)
      modifies this
      ensures (View(), end) == SaveData(client, old(View()), c)
    {
      hide Segments, PrimaryKey, FieldOf, Joined;
      var path := Segments(c.key);
      if c.key == SELF || c.key == VERSION {
        return Ok(());
      } else if path == [] {
        return Err(OutOfBounds);
      } else if !IsVesselLike(path[0]) && path[0] !in [RESOURCES, SOURCES, CONFIG] {
        return Ok(());
      }
      var primary := false;
      if IsVesselLike(path[0]) {
        primary := IsPrimary(c.key, c.source);
      }
      if |path| < 2 {
        return Err(OutOfBounds);
      }
      if path[0] == RESOURCES {
        primary := IsPrimary(c.key, c.source);
      }
      var field := FieldOf(client, c.v);
      if field.None? {
        return Err(NullPointer);
      }
      var (column, cell) := field.value;
      points := Write(points, SeriesOf(path, primary, c.source), Point(c.millis, map[column := cell]));
      return Ok(());
    }

    /** An entry of the flat map. */
    method SaveEntry(client: Client, k: Text, v: Doc, now: int) returns (end: Outcome)
      modifies this
      ensures (View(), end) == EntrySaved(client, old(View()), k, v, now)
    {
      hide SaveData, Calls, Contains;
      if IsAttribute(k) {
        return Ok(());
      }
      var source := SourceFor(k, v);
      if source.Err? {
        return Err(source.error);
      }
      var time := TimeOf(client, v, now);
      if time.Err? {
        return Err(time.error);
      }
      var (calls, asked) := Calls(client, k, v, source.value, time.value);
      for i := 0 to |calls|
        invariant SaveAll(client, old(View()), calls[..i]) == (View(), Ok(()))
      {
        assert calls[..i + 1][..i] == calls[..i] && calls[..i + 1][i] == calls[i];
        end := Save(client, calls[i]);
        if end.Err? {
          SavingEnded(client, old(View()), calls, i + 1);
          return;
        }
        assert end.value == ();
      }
      assert calls[..|calls|] == calls;
      end := asked;
    }

    method LoadData(client: Client, m: Fields, order: seq<Series>) returns (r: Result<Fields>)
      requires forall s :: s in order <==> s in points
      ensures r == LoadAll(client, m, points, order)
    {
      hide LoadSeries;
      var after := m;
      for i := 0 to |order|
        invariant LoadAll(client, m, points, order[..i]) == Ok(after)
      {
        assert order[..i + 1][..i] == order[..i];
        assert order[i] in order;
        var next := LoadSeries(client, after, order[i], points[order[i]]);
        if next.Err? {
          LoadingEnded(client, m, points, order, i + 1);
          return next;
        }
        after := next.value;
      }
      assert order[..|order|] == order;
      return Ok(after);
    }
  }

  lemma {:induction false} SavingEnded(client: Client, db: Db, calls: seq<Call>, i: nat)
    requires i <= |calls| && SaveAll(client, db, calls[..i]).1.Err?
    ensures SaveAll(client, db, calls) == SaveAll(client, db, calls[..i])
    decreases |calls| - i
  {
    hide SaveData;
    if i == |calls| {
      assert calls[..i] == calls;
    } else {
      assert calls[..i + 1][..i] == calls[..i];
      SavingEnded(client, db, calls, i + 1);
    }
  }

  lemma {:induction false} LoadingEnded(client: Client, m: Fields, points: Points, order: seq<Series>, i: nat)
    requires i <= |order| && (forall s :: s in order ==> s in points) && LoadAll(client, m, points, order[..i]).Err?
    ensures LoadAll(client, m, points, order) == LoadAll(client, m, points, order[..i])
    decreases |order| - i
  {
    hide LoadSeries;
    if i == |order| {
      assert order[..i] == order;
    } else {
      assert order[..i + 1][..i] == order[..i];
      LoadingEnded(client, m, points, order, i + 1);
    }
  }
}
