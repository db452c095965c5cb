/**
 * What is saved beside the values of sources: entries that are a plain value or an array, and the sentence and the meta data
 * of an entry.
 */
module StoreSides {
  import opened Units
  import opened JsonValues
  import opened ReaderSpec
  import opened Printer
  import opened RoundTrip
  import opened Pointers
  import opened SignalKKeys
  import opened FullFormat
  import opened DeltaFormat
  import opened Store
  import opened StoreRuns
  import opened StoreView
  import opened StoreLoad

  /** A plain entry by its path; the sentence of an entry of a writer; a field of its meta data. */
  datatype Side = Plain(path: seq<Text>) | Sentence(writer: Writer) | Meta(writer: Writer, name: Text)

  /** Paths of a vessel that do not use the words that the store looks for in keys. */
  predicate IsPlainPath(path: seq<Text>) {
    && IsPath(path) && |path| >= 3 && IsVesselLike(path[0])
    && FreeOf(path, VALUES, 1) && FreeOf(path, META, 1) && FreeOf(path, VALUE, 1) && FreeOf(path, SENTENCE, 1)
    && !IsAttribute(Joined(path))
  }

  predicate IsMetaName(name: Text) {
    IsSegment(name) && name != SENTENCE && name != META
  }

  predicate IsSide(x: Side) {
    match x
    case Plain(path) => IsPlainPath(path)
    case Sentence(w) => IsWriter(w)
    case Meta(w, name) => IsWriter(w) && IsMetaName(name)
  }

  /** The segments of the key of an entry. */
  function BaseOf(w: Writer): seq<Text> {
    w.path + [VALUES] + w.source
  }

  /** The segments of the key that a side is saved under. */
  function SidePath(x: Side): seq<Text> {
    match x
    case Plain(path) => path
    case Sentence(w) => BaseOf(w) + [SENTENCE]
    case Meta(w, name) => BaseOf(w) + [META, name]
  }

  function SideSource(x: Side): Text {
    match x
    case Plain(_) => SELF
    case Sentence(w) => Joined(w.source)
    case Meta(w, _) => Joined(w.source)
  }

  /** The path that the source is elected for. */
  function Electing(x: Side): seq<Text> {
    match x
    case Plain(path) => path
    case Sentence(w) => w.path
    case Meta(w, _) => w.path
  }

  function SideSeries(x: Side, primary: bool): Series
    requires IsSide(x)
  {
    SidePathLong(x);
    SeriesOf(SidePath(x), primary, SideSource(x))
  }

  lemma SidePathLong(x: Side)
    requires IsSide(x)
    ensures |SidePath(x)| >= 3 && IsPath(SidePath(x)) && IsVesselLike(SidePath(x)[0]) && IsPath(Electing(x))
  {
    assert IsSegment(VALUES) && IsSegment(SENTENCE) && IsSegment(META);
    if !x.Plain? {
      assert BaseOf(x.writer)[0] == x.writer.path[0];
      assert IsPath(BaseOf(x.writer));
    }
  }

  // ---------------------------------------------------------------- keys

  lemma BaseKey(w: Writer)
    requires IsWriter(w)
    ensures IsPath(BaseOf(w)) && Joined(BaseOf(w)) == EntryKey(w)
  {
    assert IsSegment(VALUES);
    JoinedAppends(w.path + [VALUES], w.source);
    JoinedAppends(w.path, [VALUES]);
    assert Joined([VALUES]) == VALUES;
    hide Joined;
    Regrouped(Joined(w.path), [DOT], VALUES);
    Regrouped(Joined(w.path), [DOT] + VALUES, [DOT]);
  }

  lemma SideKeyIs(x: Side)
    requires IsSide(x)
    ensures x.Sentence? ==> Joined(SidePath(x)) == EntryKey(x.writer) + [DOT] + SENTENCE
    ensures x.Meta? ==> Joined(SidePath(x)) == EntryKey(x.writer) + [DOT] + META + [DOT] + x.name
  {
    match x
    case Plain(_) =>
    case Sentence(w) =>
      BaseKey(w);
      JoinedAppends(BaseOf(w), [SENTENCE]);
      assert Joined([SENTENCE]) == SENTENCE;
    case Meta(w, name) =>
      BaseKey(w);
      JoinedAppends(BaseOf(w), [META, name]);
      assert [META, name][1..] == [name] && Joined([name]) == name;
      hide Joined;
      Regrouped(EntryKey(w) + [DOT], META + [DOT], name);
      Regrouped(EntryKey(w) + [DOT], META, [DOT]);
  }

  /** What stands at the inner places of the key of an entry. */
  lemma BaseSegments(w: Writer, i: nat)
    requires IsWriter(w) && i < |BaseOf(w)|
    ensures var n := |w.path|;
            BaseOf(w)[i] == if i < n then w.path[i] else if i == n then VALUES else w.source[i - n - 1]
  {
  }

  /** The first mark in the key of a side is behind the path that the source is elected for. */
  lemma SideElects(x: Side)
    requires IsSide(x)
    ensures PrimaryKey(Joined(SidePath(x))) == Joined(Electing(x))
  {
    SidePathLong(x);
    var full, n := SidePath(x), |Electing(x)|;
    assert DOT !in VALUES && DOT_VALUES_DOT == [DOT] + VALUES + [DOT];
    if x.Plain? {
      NoMark(full, VALUES);
    } else {
      var w := x.writer;
      var rest := full[n + 1..];
      assert full == w.path + [VALUES] + rest && rest != [] && IsPath(rest);
      Vessels(w.path[0]);
      FirstMark(w.path, rest);
    }
  }

  lemma NoMarkInPath(path: seq<Text>, rest: seq<Text>, j: nat)
    requires IsPath(path) && IsPath(rest) && FreeOf(path, VALUES, 1) && path[0] != VALUES
    requires var t := Joined(path + [VALUES] + rest); j <= |t| && DOT_VALUES_DOT <= t[j..]
    ensures j >= |Joined(path)|
  {
    var full := path + [VALUES] + rest;
    assert IsSegment(VALUES) && DOT_VALUES_DOT == [DOT] + VALUES + [DOT];
    hide Joined;
    MarkIsSegment(full, VALUES, j);
    var i :| IsMark(full, VALUES, i, j);
    MarkNotBefore(path, full, i);
    PrefixShorter(path, full[..i]);
  }

  /** Behind a path that is free of the mark the first mark is at once. */
  lemma FirstMark(path: seq<Text>, rest: seq<Text>)
    requires IsPath(path) && IsPath(rest) && FreeOf(path, VALUES, 1) && path[0] != VALUES
    ensures SubstringBefore(Joined(path + [VALUES] + rest), DOT_VALUES_DOT) == Joined(path)
  {
    var full := path + [VALUES] + rest;
    var t, n := Joined(full), |Joined(path)|;
    assert IsSegment(VALUES) && DOT_VALUES_DOT == [DOT] + VALUES + [DOT];
    assert full == path + ([VALUES] + rest);
    JoinedAppends(path, [VALUES] + rest);
    JoinedAppends([VALUES], rest);
    assert Joined([VALUES]) == VALUES;
    hide Joined;
    Regrouped(Joined(path) + [DOT], VALUES + [DOT], Joined(rest));
    Regrouped(Joined(path), [DOT], VALUES + [DOT]);
    Regrouped([DOT], VALUES, [DOT]);
    assert t == Joined(path) + DOT_VALUES_DOT + Joined(rest);
    assert DOT_VALUES_DOT <= t[n..];
    hide FreeOf, IsPath, IsMark, IsSegment;
    forall j | 0 <= j < n
      ensures !(DOT_VALUES_DOT <= t[j..])
    {
      if DOT_VALUES_DOT <= t[j..] {
        NoMarkInPath(path, rest, j);
      }
    }
    FirstAt(t, DOT_VALUES_DOT, n);
    assert t[..n] == Joined(path);
  }

  lemma MarkNotBefore(path: seq<Text>, full: seq<Text>, i: int)
    requires path <= full && 1 <= i < |full| && full[i] == VALUES && FreeOf(path, VALUES, 1)
    ensures i >= |path| && path <= full[..i]
  {
  }

  lemma PrefixShorter(path: seq<Text>, longer: seq<Text>)
    requires IsPath(path) && path <= longer
    ensures |Joined(path)| <= |Joined(longer)|
  {
    if path != longer {
      var rest := longer[|path|..];
      assert longer == path + rest;
      JoinedAppends(path, rest);
    }
  }

  // ---------------------------------------------------------------- saving

  predicate IsSaved(client: Client, v: Saved) {
    FieldOf(client, v).Some?
  }

  function PointFor(client: Client, v: Saved, millis: int): Point
    requires IsSaved(client, v)
  {
    var (column, cell) := FieldOf(client, v).value;
    Point(millis, map[column := cell])
  }

  /** Saving a side is one write, after the election. */
  lemma SideIsWritten(client: Client, db: Db, x: Side, v: Saved, millis: int)
    requires IsSide(x) && IsSaved(client, v)
    ensures var primaries := Elected(db.primaries, Joined(Electing(x)), SideSource(x));
            && Joined(Electing(x)) in primaries && PrimaryKey(Joined(Electing(x))) == Joined(Electing(x))
            && SaveData(client, db, Call(Joined(SidePath(x)), SideSource(x), millis, v)) ==
               (Db(Write(db.points, SideSeries(x, primaries[Joined(Electing(x))] == SideSource(x)), PointFor(client, v, millis)),
                   primaries), Ok(()))
  {
    SidePathLong(x);
    SideElects(x);
    ElectsItself(x);
    SegmentsOfJoined(SidePath(x));
    Vessels(SidePath(x)[0]);
    HasDot(SidePath(x));
    hide Joined, Segments, PrimaryKey, FieldOf, SeriesOf;
  }

  lemma ElectsItself(x: Side)
    requires IsSide(x)
    ensures PrimaryKey(Joined(Electing(x))) == Joined(Electing(x))
  {
    SidePathLong(x);
    assert DOT !in VALUES && DOT_VALUES_DOT == [DOT] + VALUES + [DOT];
    NoMark(Electing(x), VALUES);
  }

  lemma HasDot(path: seq<Text>)
    requires IsPath(path) && |path| >= 2
    ensures DOT in Joined(path) && Joined(path) != SELF && Joined(path) != VERSION
  {
    assert Joined(path)[|path[0]|] == DOT;
    assert DOT !in SELF && DOT !in VERSION;
  }

  // ---------------------------------------------------------------- series

  lemma SideSeriesKey(x: Side, primary: bool)
    requires IsSide(x)
    ensures var r := SideSeries(x, primary);
            KeyOfSeries(r) == Joined(SidePath(x)) && r.primary == Some(primary) && r.sourceRef == Some(SideSource(x))
  {
    var full := SidePath(x);
    SidePathLong(x);
    Vessels(full[0]);
    var r := SideSeries(x, primary);
    assert r == Series(full[0], Some(full[1]), Joined(full[2..]), Some(primary), Some(SideSource(x)));
    assert full[1..][1..] == full[2..];
    var a, b, c := full[0], full[1], Joined(full[2..]);
    assert Joined(full) == a + [DOT] + (b + [DOT] + c);
    assert a + [DOT] + (b + [DOT] + c) == a + [DOT] + b + [DOT] + c;
  }

  lemma PlainOrNot(x: Side)
    requires IsSide(x)
    ensures x.Plain? <==> FreeOf(SidePath(x), VALUES, 1)
  {
    if !x.Plain? {
      assert SidePath(x)[|x.writer.path|] == VALUES;
    }
  }

  /** The segments tell the sides apart. */
  lemma SidePathsDiffer(x: Side, y: Side)
    requires IsSide(x) && IsSide(y) && SidePath(x) == SidePath(y)
    ensures x == y
  {
    hide IsSide, FreeOf;
    PlainOrNot(x);
    PlainOrNot(y);
    if !x.Plain? {
      SourceThere(x, y);
    }
  }

  lemma SourceThere(x: Side, y: Side)
    requires IsSide(x) && IsSide(y) && SidePath(x) == SidePath(y) && !x.Plain? && !y.Plain?
    ensures x == y
  {
    hide SidePath, IsSide;
    var full, k := SidePath(x), |x.writer.path| + 1;
    LastOfSide(x);
    LastOfSide(y);
    ValuesBehind(x);
    ValuesBehind(y);
    SplitAt(full, VALUES, 1, x.writer.path, y.writer.path);
    SameSource(full[k..], x, y);
  }

  lemma ValuesBehind(x: Side)
    requires IsSide(x) && !x.Plain?
    ensures var n := |x.writer.path|;
            1 <= n < |SidePath(x)| && x.writer.path <= SidePath(x) && SidePath(x)[n] == VALUES && FreeOf(x.writer.path, VALUES, 1)
  {
  }

  lemma LastOfSide(x: Side)
    requires IsSide(x) && !x.Plain?
    ensures var full, k := SidePath(x), |x.writer.path| + 1;
            full[k..] == if x.Sentence? then x.writer.source + [SENTENCE] else x.writer.source + [META, x.name]
    ensures SidePath(x)[|SidePath(x)| - 1] == if x.Sentence? then SENTENCE else x.name
  {
    assert BaseOf(x.writer)[|x.writer.path| + 1..] == x.writer.source;
  }

  lemma SameSource(rest: seq<Text>, x: Side, y: Side)
    requires IsSide(x) && IsSide(y) && !x.Plain? && !y.Plain? && x.writer.path == y.writer.path
    requires rest == if x.Sentence? then x.writer.source + [SENTENCE] else x.writer.source + [META, x.name]
    requires rest == if y.Sentence? then y.writer.source + [SENTENCE] else y.writer.source + [META, y.name]
    ensures x == y
  {
    var n := |rest|;
    assert rest[n - 1] == if x.Sentence? then SENTENCE else x.name;
    assert rest[n - 1] == if y.Sentence? then SENTENCE else y.name;
    if x.Sentence? {
      assert rest[..n - 1] == x.writer.source && rest[..n - 1] == y.writer.source;
    } else {
      assert rest[..n - 2] == x.writer.source && rest[..n - 2] == y.writer.source;
    }
  }

  lemma SideSeriesDiffer(x: Side, y: Side, p: bool, q: bool)
    requires IsSide(x) && IsSide(y) && SideSeries(x, p) == SideSeries(y, q)
    ensures x == y && p == q
  {
    SideSeriesKey(x, p);
    SideSeriesKey(y, q);
    SidePathLong(x);
    SidePathLong(y);
    JoinedInjective(SidePath(x), SidePath(y));
    SidePathsDiffer(x, y);
  }

  /** No series is that of a side and that of a slot. */
  lemma SideIsNoSlot(x: Side, s: Slot, p: bool, q: bool)
    requires IsSide(x) && IsSlot(s)
    ensures SideSeries(x, p) != SeriesFor(s, q)
  {
    if SideSeries(x, p) == SeriesFor(s, q) {
      SideSeriesKey(x, p);
      SeriesKey(s, q);
      SidePathLong(x);
      FullPathIsPath(s);
      JoinedInjective(SidePath(x), FullPath(s));
      NoSlotPath(x, s);
    }
  }

  lemma NoSlotPath(x: Side, s: Slot)
    requires IsSide(x) && IsSlot(s)
    ensures SidePath(x) != FullPath(s)
  {
    var full := FullPath(s);
    assert |VALUES| == 6 && |META| == 4 && |SENTENCE| == 8 && |VALUE| == 5;
    assert full[|s.writer.path|] == VALUES;
    assert full[|full| - 1] == if s.field.Some? then s.field.value else VALUE;
    match x
    case Plain(_) =>
    case Sentence(_) => LastOfSide(x);
    case Meta(w, name) =>
      var path := SidePath(x);
      assert path[|path| - 2] == META;
      NoMetaInside(s);
  }

  // ---------------------------------------------------------------- loading

  /** What is set when the series of a side is loaded: the key, and the node there. */
  function SideNode(x: Side, parent: Json, v: Json): Result<Json> {
    match x
    case Plain(_) => Ok(v)
    case Sentence(_) => if parent.Obj? then Ok(Obj(parent.fields[SENTENCE := v])) else Err(Unsupported)
    case Meta(_, name) =>
      if parent.Obj?
      then Ok(Obj((if META in parent.fields then parent.fields else parent.fields[META := Obj(map[])])[name := v]))
      else Err(Unsupported)
  }

  function TargetKey(x: Side): Text {
    match x
    case Plain(path) => Joined(path)
    case Sentence(w) => EntryKey(w)
    case Meta(w, _) => EntryKey(w)
  }

  lemma PlainKeyRead(path: seq<Text>)
    requires IsPlainPath(path)
    ensures var key := Joined(path);
            && !EndsWith(key, [DOT] + SENTENCE) && !EndsWith(key, DOT_VALUE) && !Contains(key, DOT_META_DOT)
            && !Contains(key, DOT_VALUES_DOT) && !Contains(key, DOT_VALUE_DOT)
  {
    assert DOT !in VALUES && DOT !in META && DOT !in VALUE && DOT !in SENTENCE;
    NoMark(path, VALUES);
    NoMark(path, META);
    NoMark(path, VALUE);
    var n := |path| - 1;
    assert path == path[..n] + [path[n]];
    JoinedAppends(path[..n], [path[n]]);
    assert Joined([path[n]]) == path[n];
    LastSegment(Joined(path[..n]), path[n], SENTENCE);
    LastSegment(Joined(path[..n]), path[n], VALUE);
  }

  lemma SentenceKeyRead(w: Writer)
    requires IsWriter(w)
    ensures var key := Joined(SidePath(Sentence(w)));
            EndsWith(key, [DOT] + SENTENCE) && SubstringBeforeLast(key, [DOT]) == EntryKey(w)
  {
    SideKeyIs(Sentence(w));
    assert DOT !in SENTENCE;
    LastDot(EntryKey(w), SENTENCE);
    var key := Joined(SidePath(Sentence(w)));
    Regrouped(EntryKey(w), [DOT], SENTENCE);
    assert key[|EntryKey(w)|..] == [DOT] + SENTENCE;
  }

  lemma MetaKeyRead(w: Writer, name: Text)
    requires IsWriter(w) && IsMetaName(name)
    ensures var key := Joined(SidePath(Meta(w, name)));
            && !EndsWith(key, [DOT] + SENTENCE) && Contains(key, DOT_META_DOT)
            && SubstringBeforeLast(key, DOT_META_DOT) == EntryKey(w) && SubstringAfterLast(key, DOT_META_DOT) == name
            && Segments(name) == [name]
  {
    hide SidePath, IsWriter, EndsWith, Joined, EntryKey, IndexOf, LastIndexOf, Segments, IsSegment;
    var key, n := Joined(SidePath(Meta(w, name))), |EntryKey(w)|;
    SideKeyIs(Meta(w, name));
    NoDots(name);
    LastSegment(EntryKey(w) + [DOT] + META, name, SENTENCE);
    MetaGroups(EntryKey(w), name);
    MetaAt(w, name);
    assert key[..n] == EntryKey(w) && key[n + |DOT_META_DOT|..] == name;
    JoinedOne(name);
    SegmentsOfJoined([name]);
  }

  lemma NoDots(name: Text)
    requires IsMetaName(name)
    ensures DOT !in META && DOT !in SENTENCE && DOT !in name && name != [] && name != SENTENCE && IsPath([name])
  {
  }

  /** The only mark of the meta data is behind the key of the entry. */
  lemma MetaAt(w: Writer, name: Text)
    requires IsWriter(w) && IsMetaName(name)
    ensures var key := Joined(SidePath(Meta(w, name)));
            IndexOf(key, DOT_META_DOT) == |EntryKey(w)| && LastIndexOf(key, DOT_META_DOT) == |EntryKey(w)|
  {
    var x := Meta(w, name);
    var full := SidePath(x);
    var key, n := Joined(full), |EntryKey(w)|;
    SidePathLong(x);
    SideKeyIs(x);
    BaseKey(w);
    hide Joined, EntryKey, IsWriter;
    assert DOT !in META && DOT_META_DOT == [DOT] + META + [DOT];
    MetaGroups(EntryKey(w), name);
    assert DOT_META_DOT <= key[n..];
    forall j | 0 <= j <= |key| && DOT_META_DOT <= key[j..]
      ensures j == n
    {
      MarkIsSegment(full, META, j);
      var i :| IsMark(full, META, i, j);
      OnlyMeta(w, name, i);
      assert full[..i] == BaseOf(w);
    }
    FirstAt(key, DOT_META_DOT, n);
    LastAt(key, DOT_META_DOT, n);
  }

  lemma JoinedOne(name: Text)
    ensures Joined([name]) == name
  {
  }

  lemma MetaGroups(a: Text, name: Text)
    ensures a + [DOT] + META + [DOT] + name == a + DOT_META_DOT + name
  {
    Regrouped(a, [DOT], META);
    Regrouped(a, [DOT] + META, [DOT]);
  }

  lemma OnlyMeta(w: Writer, name: Text, i: int)
    requires IsWriter(w)
    requires var full := SidePath(Meta(w, name)); 1 <= i < |full| - 1 && full[i] == META
    ensures i == |BaseOf(w)|
  {
    assert |VALUES| == 6 && |META| == 4;
    if i < |BaseOf(w)| {
      BaseSegments(w, i);
    }
  }

  /** Loading the series of a side sets one key. */
  lemma SideLoads(client: Client, m: Fields, x: Side, primary: bool, p: Point)
    requires IsSide(x) && JsonOf(client, p).Ok?
    ensures var node := SideNode(x, ParentAt(m, TargetKey(x)), JsonOf(client, p).value);
            LoadSeries(client, m, SideSeries(x, primary), p)
            == if node.Ok? then Ok(m[TargetKey(x) := node.value]) else Err(node.error)
  {
    SideSeriesKey(x, primary);
    match x
    case Plain(path) => PlainKeyRead(path);
    case Sentence(w) => SentenceKeyRead(w);
    case Meta(w, name) => MetaKeyRead(w, name);
    hide SideSeries, Joined, Contains, EndsWith, SubstringBeforeLast, SubstringAfterLast, JsonOf, LoadValue, Extracted, Segments,
      PrimaryKey, SidePath, EntryKey;
    if x.Meta? {
      AddsMeta(ParentAt(m, EntryKey(x.writer)), x.name, JsonOf(client, p).value);
    }
  }

  lemma AddsMeta(parent: Json, name: Text, v: Json)
    ensures AddAtPath(parent, [META, name], v) ==
      if parent.Obj? then Ok(Obj((if META in parent.fields then parent.fields else parent.fields[META := Obj(map[])])[name := v]))
      else Err(Unsupported)
  {
    assert [META, name][1..] == [name];
  }

  // ---------------------------------------------------------------- values

  /** An array that is stored as it is printed, and can be read again. */
  ghost predicate IsStorableArray(client: Client, d: Doc) {
    d.Array? && WellFormed(d) && Readable(d) && client.printed(d) == Print(d)
  }

  /** A value that comes back as it was: a storable scalar, or such an array. */
  ghost predicate IsStorable(client: Client, d: Doc) {
    (d.Scalar? && Storable(client, d.json)) || IsStorableArray(client, d)
  }

  /** Cells that only storable values can have left. */
  ghost predicate CellsRead(client: Client, p: Point) {
    && (LongValue in p.cells ==> p.cells[LongValue].Whole? && client.asDouble(p.cells[LongValue].n) == p.cells[LongValue].n)
    && (NullValue in p.cells ==> p.cells[NullValue] == Characters(TRUE))
    && (DoubleValue in p.cells ==> p.cells[DoubleValue].Real?)
    && (StrValue in p.cells ==> p.cells[StrValue].Characters?)
    && (StrValue in p.cells && LooksLikeArray(p.cells[StrValue].t) ==> ReadJson(p.cells[StrValue].t).Ok?)
  }

  lemma CellsReadable(client: Client, p: Point)
    requires CellsRead(client, p)
    ensures JsonOf(client, p).Ok?
  {
    hide LooksLikeArray, ReadJson;
  }

  lemma LaterCells(client: Client, p: Point, q: Point)
    requires CellsRead(client, p) && CellsRead(client, q)
    ensures CellsRead(client, Later(p, q))
  {
    hide LooksLikeArray, ReadJson;
  }

  lemma ArrayLooksLikeOne(d: Doc)
    requires d.Array? && WellFormed(d)
    ensures var t := Print(d); LooksLikeArray(t) && t != TRUE && t != FALSE
  {
    var t := Print(d);
    assert t[0] == OPEN_BRACKET;
    ArrayCloses(d);
    assert Trim(t) == t;
    assert [OPEN_BRACKET] <= t;
  }

  lemma ArrayCloses(d: Doc)
    requires d.Array? && WellFormed(d)
    ensures Print(d) != [] && Print(d)[|Print(d)| - 1] == CLOSE_BRACKET
  {
    ItemsClose(d.items);
  }

  lemma {:induction false} ItemsClose(items: seq<Doc>)
    requires AllWellFormed(items)
    ensures PrintItems(items) != [] && PrintItems(items)[|PrintItems(items)| - 1] == CLOSE_BRACKET
    decreases items
  {
    hide Print;
    if items != [] && items[1..] != [] {
      ItemsClose(items[1..]);
    }
  }

  /** A storable value is read out of its point as it was. */
  lemma StorableReadsBack(client: Client, d: Doc, millis: int)
    requires IsStorable(client, d)
    ensures IsSaved(client, Of(d)) && CellsRead(client, PointFor(client, Of(d), millis))
    ensures JsonOf(client, PointFor(client, Of(d), millis)) == Ok(ValueOf(d)) && PointFor(client, Of(d), millis).time == millis
  {
    if d.Array? {
      ArrayLooksLikeOne(d);
      var t := Print(d);
      assert t + [] == t;
      ParserUndoesPrinter(ValueOf(d), d, []);
      hide Print, ReadJson, LooksLikeArray, WellFormed, Readable;
    } else {
      hide LooksLikeArray;
      assert TRUE != FALSE;
    }
  }
}
