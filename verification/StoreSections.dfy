/** What is saved in the sections `config` and `sources`, and read back by `loadConfig` and `loadSources`. */
module StoreSections {
  import opened Units
  import opened JsonValues
  import opened Printer
  import opened Pointers
  import opened SignalKKeys
  import opened FullFormat
  import opened DeltaFormat
  import opened Store
  import opened StoreRuns
  import opened StoreBack
  import opened StoreSides

  /** The sections that the store knows; those in the first line have a primary source. */
  lemma Sections(name: Text)
    ensures IsVesselLike(name) || name == RESOURCES <==>
            name in {Chars("vessels"), Chars("aircraft"), Chars("sar"), Chars("aton"), Chars("resources")}
    ensures IsVesselLike(name) <==> name in {Chars("vessels"), Chars("aircraft"), Chars("sar"), Chars("aton")}
    ensures SOURCES == Chars("sources") && CONFIG == Chars("config")
  {
    WordsSpelled();
  }

  predicate IsSection(section: Text) {
    section == Chars("config") || section == Chars("sources")
  }

  predicate IsSectionPath(section: Text, path: seq<Text>) {
    IsSection(section) && IsPath(path) && |path| >= 2 && path[0] == section && !IsAttribute(Joined(path))
  }

  /** The series of a path: the configuration keeps an identity, the sources a source, neither has a primary one. */
  function SectionSeries(section: Text, path: seq<Text>): Series
    requires IsSectionPath(section, path)
  {
    if section == Chars("config") then Series(Chars("config"), Some(path[1]), Joined(path[1..]), None, None)
    else Series(Chars("sources"), None, Joined(path[1..]), None, Some(path[1]))
  }

  lemma SectionSeriesDiffer(section: Text, p: seq<Text>, q: seq<Text>)
    requires IsSectionPath(section, p) && IsSectionPath(section, q) && SectionSeries(section, p) == SectionSeries(section, q)
    ensures p == q
  {
    JoinedInjective(p[1..], q[1..]);
    assert p == [p[0]] + p[1..] && q == [q[0]] + q[1..];
  }

  /** An entry that is saved: a value, or null, which is saved as the Java null. */
  datatype SectionPut = SectionPut(path: seq<Text>, doc: Doc, now: int)

  function SavedOf(doc: Doc): Saved {
    if doc == Scalar(Null) then JavaNull else Of(doc)
  }

  ghost predicate AreSectionPuts(client: Client, section: Text, xs: seq<SectionPut>) {
    forall i :: 0 <= i < |xs| ==> IsSectionPath(section, xs[i].path) && IsStorable(client, xs[i].doc)
  }

  lemma SavedHasField(client: Client, doc: Doc, now: int)
    requires IsStorable(client, doc)
    ensures IsSaved(client, SavedOf(doc)) && PointFor(client, SavedOf(doc), now).time == now
    ensures JsonOf(client, PointFor(client, SavedOf(doc), now)) == if doc == Scalar(Null) then Err(ClassCast) else Ok(ValueOf(doc))
  {
    StorableReadsBack(client, doc, now);
    hide LooksLikeArray;
  }

  /** Saving an entry of a section is one write, and no source is elected. */
  lemma SectionSaved(client: Client, db: Db, section: Text, path: seq<Text>, doc: Doc, now: int)
    requires IsSectionPath(section, path) && IsStorable(client, doc)
    ensures IsSaved(client, SavedOf(doc))
    ensures EntrySaved(client, db, Joined(path), doc, now) ==
            (Db(Write(db.points, SectionSeries(section, path), PointFor(client, SavedOf(doc), now)), db.primaries), Ok(()))
  {
    SavedHasField(client, doc, now);
    SegmentsOfJoined(path);
    SectionWords(section);
    NotSelf(path);
    hide Joined, Segments, FieldOf, IsAttribute, SubstringAfter, Blank, JsonOf, IsStorable, PrimaryKey;
    assert !doc.Object?;
    var source := SourceFor(Joined(path), doc).value;
    var call := Call(Joined(path), source, now, SavedOf(doc));
    assert Calls(client, Joined(path), doc, source, now) == ([call], Ok(()));
    assert [call][..0] == [] && [call][0] == call;
    assert SaveAll(client, db, []) == (db, Ok(()));
    assert SaveAll(client, db, [call]) == SaveData(client, db, call);
  }

  lemma SectionWords(section: Text)
    requires IsSection(section)
    ensures !IsVesselLike(section) && section != RESOURCES && (section == SOURCES || section == CONFIG)
    ensures SOURCES == Chars("sources") && CONFIG == Chars("config") && SOURCES != CONFIG
  {
    WordsSpelled();
    assert |VESSELS| == 7 && |AIRCRAFT| == 8 && |SAR| == 3 && |ATON| == 4 && |RESOURCES| == 9 && |SOURCES| == 7 && |CONFIG| == 6;
    assert SOURCES[0] != VESSELS[0];
  }

  lemma NotSelf(path: seq<Text>)
    requires IsPath(path) && |path| >= 2
    ensures Joined(path) != SELF && Joined(path) != VERSION
  {
    assert Joined(path)[|path[0]|] == DOT;
    assert DOT !in SELF && DOT !in VERSION;
  }

  // ---------------------------------------------------------------- runs

  ghost function RunSections(client: Client, section: Text, xs: seq<SectionPut>): (Db, Outcome)
    requires AreSectionPuts(client, section, xs)
  {
    if xs == [] then (Db(map[], map[]), Ok(()))
    else
      var n := |xs| - 1;
      var (before, end) := RunSections(client, section, xs[..n]);
      if end.Err? then (before, end) else EntrySaved(client, before, Joined(xs[n].path), xs[n].doc, xs[n].now)
  }

  /** The latest point of a path; two of the same time become one. */
  ghost function LatestAt(client: Client, section: Text, xs: seq<SectionPut>, path: seq<Text>): Option<Point>
    requires AreSectionPuts(client, section, xs)
  {
    if xs == [] then None
    else
      var n := |xs| - 1;
      var before := LatestAt(client, section, xs[..n], path);
      if xs[n].path != path then before
      else
        SavedHasField(client, xs[n].doc, xs[n].now);
        var p := PointFor(client, SavedOf(xs[n].doc), xs[n].now);
        Some(if before.Some? then Later(before.value, p) else p)
  }

  predicate WasSaved(xs: seq<SectionPut>, path: seq<Text>) {
    exists i :: 0 <= i < |xs| && xs[i].path == path
  }

  lemma {:induction false} LatestOfSaved(client: Client, section: Text, xs: seq<SectionPut>, path: seq<Text>)
    requires AreSectionPuts(client, section, xs)
    ensures LatestAt(client, section, xs, path).Some? <==> WasSaved(xs, path)
    ensures WasSaved(xs, path) ==> IsSectionPath(section, path)
  {
    hide IsSectionPath, IsStorable;
    if xs != [] {
      var n := |xs| - 1;
      LatestOfSaved(client, section, xs[..n], path);
      if xs[n].path == path {
        assert WasSaved(xs, path);
      } else if WasSaved(xs, path) {
        var i :| 0 <= i < |xs| && xs[i].path == path;
        assert xs[..n][i].path == path;
      }
    }
  }

  /** The store has the latest point of every path that was saved, and nothing else. */
  ghost predicate KeepsSection(client: Client, section: Text, xs: seq<SectionPut>, points: Points)
    requires AreSectionPuts(client, section, xs)
  {
    && (forall path :: IsSectionPath(section, path) && LatestAt(client, section, xs, path).Some? ==>
          var r := SectionSeries(section, path); r in points && points[r] == LatestAt(client, section, xs, path).value)
    && forall r :: r in points ==>
         exists path :: IsSectionPath(section, path) && LatestAt(client, section, xs, path).Some? && r == SectionSeries(section, path)
  }

  lemma {:induction false} SectionHolds(client: Client, section: Text, xs: seq<SectionPut>)
    requires AreSectionPuts(client, section, xs)
    ensures var (db, end) := RunSections(client, section, xs);
            end == Ok(()) && db.primaries == map[] && KeepsSection(client, section, xs, db.points)
  {
    hide IsStorable, IsSectionPath, SectionSeries, EntrySaved, KeepsSection;
    if xs == [] {
      NothingKept(client, section);
    } else {
      var n := |xs| - 1;
      SectionHolds(client, section, xs[..n]);
      var (before, _) := RunSections(client, section, xs[..n]);
      SectionSaved(client, before, section, xs[n].path, xs[n].doc, xs[n].now);
      SectionKept(client, section, xs, before.points);
    }
  }

  lemma NothingKept(client: Client, section: Text)
    ensures KeepsSection(client, section, [], map[])
  {
  }

  lemma LatestPush(client: Client, section: Text, xs: seq<SectionPut>, path: seq<Text>)
    requires AreSectionPuts(client, section, xs) && xs != []
    ensures var n := |xs| - 1;
            var before := LatestAt(client, section, xs[..n], path);
            && IsSaved(client, SavedOf(xs[n].doc))
            && var p := PointFor(client, SavedOf(xs[n].doc), xs[n].now);
               LatestAt(client, section, xs, path) ==
               if xs[n].path != path then before else Some(if before.Some? then Later(before.value, p) else p)
  {
    hide IsStorable, IsSectionPath, Later, PointFor, IsSaved;
    SavedHasField(client, xs[|xs| - 1].doc, xs[|xs| - 1].now);
  }

  lemma SectionKept(client: Client, section: Text, xs: seq<SectionPut>, points: Points)
    requires AreSectionPuts(client, section, xs) && xs != [] && KeepsSection(client, section, xs[..|xs| - 1], points)
    ensures var x := xs[|xs| - 1];
            && IsSaved(client, SavedOf(x.doc))
            && KeepsSection(client, section, xs, Write(points, SectionSeries(section, x.path), PointFor(client, SavedOf(x.doc), x.now)))
  {
    hide IsStorable, IsSectionPath, SectionSeries, Later, PointFor, IsSaved, LatestAt;
    var n := |xs| - 1;
    var x := xs[n];
    SavedHasField(client, x.doc, x.now);
    var r := SectionSeries(section, x.path);
    var after := Write(points, r, PointFor(client, SavedOf(x.doc), x.now));
    forall path: seq<Text>
      ensures path != x.path ==> LatestAt(client, section, xs, path) == LatestAt(client, section, xs[..n], path)
      ensures IsSectionPath(section, path) && path != x.path ==> SectionSeries(section, path) != r
    {
      LatestPush(client, section, xs, path);
      if IsSectionPath(section, path) && SectionSeries(section, path) == r {
        SectionSeriesDiffer(section, path, x.path);
      }
    }
    LatestPush(client, section, xs, x.path);
    assert r in points <==> LatestAt(client, section, xs[..n], x.path).Some?;
    forall q | q in after
      ensures exists path :: IsSectionPath(section, path) && LatestAt(client, section, xs, path).Some? && q == SectionSeries(section, path)
    {
      if q != r {
        var path :| IsSectionPath(section, path) && LatestAt(client, section, xs[..n], path).Some? && q == SectionSeries(section, path);
        assert LatestAt(client, section, xs, path).Some?;
      }
    }
  }

  // ---------------------------------------------------------------- loading

  /** `loadConfig` and `loadSources`: the key is the section and the rest of the path. */
  function SectionLoaded(client: Client, m: Fields, points: Points, order: seq<Series>): Result<Fields>
    requires forall r :: r in order ==> r in points
  {
    if order == [] then Ok(m)
    else
      var n := |order| - 1;
      var before :- SectionLoaded(client, m, points, order[..n]);
      var v :- JsonOf(client, points[order[n]]);
      Ok(before[order[n].measurement + [DOT] + order[n].skey := v])
  }

  method LoadSection(client: Client, m: Fields, points: Points, order: seq<Series>) returns (r: Result<Fields>)
    requires forall s :: s in order ==> s in points
    ensures r.Ok? <==> SectionLoaded(client, m, points, order).Ok?
    ensures r.Ok? ==> r == SectionLoaded(client, m, points, order)
  {
    hide JsonOf;
    var after := m;
    for i := 0 to |order|
      invariant SectionLoaded(client, m, points, order[..i]) == Ok(after)
    {
      assert order[..i + 1][..i] == order[..i] && order[..i + 1][i] == order[i];
      var v := JsonOf(client, points[order[i]]);
      if v.Err? {
        SectionFailed(client, m, points, order, i + 1);
        return Err(v.error);
      }
      after := after[order[i].measurement + [DOT] + order[i].skey := v.value];
    }
    assert order[..|order|] == order;
    return Ok(after);
  }

  lemma {:induction false} SectionFailed(client: Client, m: Fields, points: Points, order: seq<Series>, i: nat)
    requires i <= |order| && (forall s :: s in order ==> s in points) && SectionLoaded(client, m, points, order[..i]).Err?
    ensures SectionLoaded(client, m, points, order).Err?
    decreases |order| - i
  {
    hide JsonOf;
    if i == |order| {
      assert order[..i] == order;
    } else {
      assert order[..i + 1][..i] == order[..i];
      SectionFailed(client, m, points, order, i + 1);
    }
  }

  lemma SectionKey(section: Text, path: seq<Text>)
    requires IsSectionPath(section, path)
    ensures var r := SectionSeries(section, path); r.measurement + [DOT] + r.skey == Joined(path)
  {
  }

  /** What an answer is loaded as: the paths whose series are in it, each with its latest value. */
  ghost predicate ShowsSection(client: Client, section: Text, xs: seq<SectionPut>, order: seq<Series>, m: Fields)
    requires AreSectionPuts(client, section, xs)
  {
    && (forall path :: Listed(section, xs, order, path) ==>
          var p := LatestAt(client, section, xs, path);
          p.Some? && Joined(path) in m && JsonOf(client, p.value) == Ok(m[Joined(path)]))
    && forall k :: k in m ==> exists path :: Listed(section, xs, order, path) && k == Joined(path)
  }

  /** The path was saved, and its series is in the answer. */
  ghost predicate Listed(section: Text, xs: seq<SectionPut>, order: seq<Series>, path: seq<Text>) {
    IsSectionPath(section, path) && WasSaved(xs, path) && SectionSeries(section, path) in order
  }

  lemma {:induction false} SectionShown(client: Client, section: Text, xs: seq<SectionPut>, points: Points, order: seq<Series>)
    requires AreSectionPuts(client, section, xs) && KeepsSection(client, section, xs, points)
    requires forall r :: r in order ==> r in points
    ensures var loaded := SectionLoaded(client, map[], points, order);
            && (loaded.Ok? <==> forall r :: r in order ==> JsonOf(client, points[r]).Ok?)
            && (loaded.Ok? ==> ShowsSection(client, section, xs, order, loaded.value))
  {
    hide KeepsSection, IsSectionPath, SectionSeries, IsStorable, JsonOf, ShowsSection;
    if order == [] {
      ShowsNothing(client, section, xs);
    } else {
      var n := |order| - 1;
      assert order == order[..n] + [order[n]];
      SectionShown(client, section, xs, points, order[..n]);
      if SectionLoaded(client, map[], points, order).Ok? {
        var path := SeriesHasPath(client, section, xs, points, order[n]);
        SectionKey(section, path);
        ShowsOneMore(client, section, xs, order, SectionLoaded(client, map[], points, order[..n]).value, path);
      }
    }
  }

  lemma ShowsNothing(client: Client, section: Text, xs: seq<SectionPut>)
    requires AreSectionPuts(client, section, xs)
    ensures ShowsSection(client, section, xs, [], map[])
  {
  }

  lemma SeriesHasPath(client: Client, section: Text, xs: seq<SectionPut>, points: Points, r: Series) returns (path: seq<Text>)
    requires AreSectionPuts(client, section, xs) && KeepsSection(client, section, xs, points) && r in points
    ensures IsSectionPath(section, path) && WasSaved(xs, path) && r == SectionSeries(section, path)
    ensures LatestAt(client, section, xs, path) == Some(points[r])
  {
    hide IsSectionPath, SectionSeries, IsStorable;
    path :| IsSectionPath(section, path) && LatestAt(client, section, xs, path).Some? && r == SectionSeries(section, path);
    LatestOfSaved(client, section, xs, path);
  }

  lemma ShowsOneMore(client: Client, section: Text, xs: seq<SectionPut>, order: seq<Series>, m: Fields, path: seq<Text>)
    requires AreSectionPuts(client, section, xs) && order != [] && ShowsSection(client, section, xs, order[..|order| - 1], m)
    requires IsSectionPath(section, path) && WasSaved(xs, path) && order[|order| - 1] == SectionSeries(section, path)
    requires LatestAt(client, section, xs, path).Some? && JsonOf(client, LatestAt(client, section, xs, path).value).Ok?
    ensures ShowsSection(client, section, xs, order,
                         m[Joined(path) := JsonOf(client, LatestAt(client, section, xs, path).value).value])
  {
    hide IsStorable, JsonOf, SectionSeries, LatestAt, WasSaved, Joined;
    var n := |order| - 1;
    var after := m[Joined(path) := JsonOf(client, LatestAt(client, section, xs, path).value).value];
    assert order == order[..n] + [order[n]];
    forall q | Listed(section, xs, order, q)
      ensures var p := LatestAt(client, section, xs, q); p.Some? && Joined(q) in after && JsonOf(client, p.value) == Ok(after[Joined(q)])
    {
      if Joined(q) == Joined(path) {
        JoinedInjective(q, path);
      } else {
        if SectionSeries(section, q) == order[n] {
          SectionSeriesDiffer(section, q, path);
        }
        assert Listed(section, xs, order[..n], q);
      }
    }
    forall k | k in after
      ensures exists q :: Listed(section, xs, order, q) && k == Joined(q)
    {
      if k == Joined(path) {
        assert Listed(section, xs, order, path);
      } else {
        var q :| Listed(section, xs, order[..n], q) && k == Joined(q);
        assert Listed(section, xs, order, q);
      }
    }
  }

  /**
   * After any run of saves the section is loaded with the keys that were saved, each with its latest value, unless the latest
   * value of some key cannot be read.
   */
  lemma SectionComesBack(client: Client, section: Text, xs: seq<SectionPut>, order: seq<Series>)
    requires AreSectionPuts(client, section, xs)
    ensures var (db, end) := RunSections(client, section, xs);
            && end == Ok(())
            && (IsAnswer(db.points, order) ==>
                  var loaded := SectionLoaded(client, map[], db.points, order);
                  && (loaded.Ok? <==> forall path :: WasSaved(xs, path) ==> LatestIsRead(client, section, xs, path))
                  && (loaded.Ok? ==>
                        && (forall path :: WasSaved(xs, path) ==>
                              && Joined(path) in loaded.value
                              && JsonOf(client, LatestAt(client, section, xs, path).value) == Ok(loaded.value[Joined(path)]))
                        && forall k :: k in loaded.value ==> exists path :: WasSaved(xs, path) && k == Joined(path)))
  {
    hide IsStorable, JsonOf, KeepsSection, RunSections, WasSaved, LatestAt, SectionSeries, IsSectionPath;
    SectionHolds(client, section, xs);
    var (db, _) := RunSections(client, section, xs);
    if IsAnswer(db.points, order) {
      SectionShown(client, section, xs, db.points, order);
      forall path | WasSaved(xs, path)
        ensures Listed(section, xs, order, path) && LatestAt(client, section, xs, path).Some?
        ensures SectionSeries(section, path) in order
        ensures db.points[SectionSeries(section, path)] == LatestAt(client, section, xs, path).value
      {
        SavedIsKept(client, section, xs, db.points, path);
      }
      forall r | r in order
        ensures exists path :: WasSaved(xs, path) && LatestAt(client, section, xs, path) == Some(db.points[r])
      {
        var path := SeriesHasPath(client, section, xs, db.points, r);
      }
    }
  }

  lemma SavedIsKept(client: Client, section: Text, xs: seq<SectionPut>, points: Points, path: seq<Text>)
    requires AreSectionPuts(client, section, xs) && KeepsSection(client, section, xs, points) && WasSaved(xs, path)
    ensures IsSectionPath(section, path) && SectionSeries(section, path) in points
    ensures LatestAt(client, section, xs, path) == Some(points[SectionSeries(section, path)])
  {
    hide IsStorable, SectionSeries, IsSectionPath, WasSaved;
    LatestOfSaved(client, section, xs, path);
  }

  ghost predicate LatestIsRead(client: Client, section: Text, xs: seq<SectionPut>, path: seq<Text>)
    requires AreSectionPuts(client, section, xs)
  {
    LatestAt(client, section, xs, path).Some? && JsonOf(client, LatestAt(client, section, xs, path).value).Ok?
  }

  /** What was saved last, later than all else at its path, is read as it was, unless it is null. */
  lemma {:induction false} LatestIsSaved(client: Client, section: Text, xs: seq<SectionPut>, i: nat)
    requires AreSectionPuts(client, section, xs) && i < |xs|
    requires forall j :: 0 <= j < |xs| && j != i && xs[j].path == xs[i].path ==> xs[j].now < xs[i].now
    ensures IsSaved(client, SavedOf(xs[i].doc))
    ensures LatestAt(client, section, xs, xs[i].path) == Some(PointFor(client, SavedOf(xs[i].doc), xs[i].now))
    ensures JsonOf(client, LatestAt(client, section, xs, xs[i].path).value) ==
            if xs[i].doc == Scalar(Null) then Err(ClassCast) else Ok(ValueOf(xs[i].doc))
  {
    hide IsStorable, JsonOf, IsSectionPath, IsSaved, PointFor;
    SavedHasField(client, xs[i].doc, xs[i].now);
    var n := |xs| - 1;
    if i < n {
      LatestIsSaved(client, section, xs[..n], i);
      SavedHasField(client, xs[n].doc, xs[n].now);
    } else {
      LatestBefore(client, section, xs[..n], xs[i].path, xs[i].now);
    }
  }

  lemma {:induction false} LatestBefore(client: Client, section: Text, xs: seq<SectionPut>, path: seq<Text>, bound: int)
    requires AreSectionPuts(client, section, xs) && forall j :: 0 <= j < |xs| && xs[j].path == path ==> xs[j].now < bound
    ensures var p := LatestAt(client, section, xs, path); p.Some? ==> p.value.time < bound
  {
    hide IsStorable, IsSectionPath, IsSaved, PointFor;
    if xs != [] {
      var n := |xs| - 1;
      LatestBefore(client, section, xs[..n], path, bound);
      SavedHasField(client, xs[n].doc, xs[n].now);
    }
  }

  /** A resource is filed under its whole path, and its source is elected like that of a vessel. */
  lemma ResourceSaved(client: Client, db: Db, path: seq<Text>, source: Text, millis: int, v: Saved)
    requires IsPath(path) && |path| >= 2 && path[0] == Chars("resources") && IsSaved(client, v)
    ensures var key := Joined(path);
            var main := SubstringBefore(key, Chars(".values."));
            var primaries := if main in db.primaries then db.primaries else db.primaries[main := source];
            SaveData(client, db, Call(key, source, millis, v)) ==
              (Db(Write(db.points, Series(Chars("resources"), Some(path[1]), Joined(path[1..]), Some(primaries[main] == source), Some(source)),
                        PointFor(client, v, millis)), primaries), Ok(()))
  {
    hide Joined, Segments, FieldOf, SubstringBefore, IsVesselLike, IsPath, Later, Chars;
    SegmentsOfJoined(path);
    NotSelf(path);
    ResourceWords();
  }

  lemma ResourceWords()
    ensures RESOURCES == Chars("resources") && DOT_VALUES_DOT == Chars(".values.") && !IsVesselLike(RESOURCES)
  {
    WordsSpelled();
    assert |VESSELS| == 7 && |AIRCRAFT| == 8 && |SAR| == 3 && |ATON| == 4 && |RESOURCES| == 9;
  }
}
