/** What comes back of runs of saves of every kind. */
module StoreMixedBack {
  import opened Units
  import opened JsonValues
  import opened Printer
  import opened SignalKKeys
  import opened FullFormat
  import opened DeltaFormat
  import opened Store
  import opened StoreRuns
  import opened StoreView
  import opened StoreLoad
  import opened StoreBack
  import opened StoreSides
  import opened StoreMixed

  // ---------------------------------------------------------------- what is shown of the sides

  ghost function SideValue(client: Client, xs: seq<SidePut>, x: Side): Json
    requires AllSides(client, xs) && LatestSide(client, xs, x).Some?
  {
    var v := JsonOf(client, LatestSide(client, xs, x).value);
    if v.Ok? then v.value else Null
  }

  ghost predicate Written(client: Client, xs: seq<SidePut>, ws: set<Side>)
    requires AllSides(client, xs)
  {
    forall x :: x in ws ==> IsSide(x) && LatestSide(client, xs, x).Some?
  }

  /** A plain entry is its value; the others stand under the key of the entry, the meta data with an empty object besides. */
  ghost predicate SideShown(client: Client, xs: seq<SidePut>, x: Side, m: Fields)
    requires AllSides(client, xs) && LatestSide(client, xs, x).Some?
  {
    && TargetKey(x) in m
    && var node := m[TargetKey(x)];
       match x
       case Plain(_) => node == SideValue(client, xs, x)
       case Sentence(_) => node.Obj? && SENTENCE in node.fields && node.fields[SENTENCE] == SideValue(client, xs, x)
       case Meta(_, name) =>
         && node.Obj? && META in node.fields && node.fields[META] == Obj(map[])
         && name in node.fields && node.fields[name] == SideValue(client, xs, x)
  }

  ghost predicate IsSideField(ws: set<Side>, w: Writer, f: Text) {
    || (f == SENTENCE && Sentence(w) in ws)
    || (f == META && exists name :: Meta(w, name) in ws)
    || Meta(w, f) in ws
  }

  ghost predicate OnlySides(ws: set<Side>, x: Side, node: Json) {
    x.Plain? || (node.Obj? && forall f :: f in node.fields ==> IsSideField(ws, x.writer, f))
  }

  /** All of the sides are shown, and nothing else. */
  ghost predicate ShowsSides(client: Client, xs: seq<SidePut>, ws: set<Side>, m: Fields)
    requires AllSides(client, xs) && Written(client, xs, ws)
  {
    && (forall x :: x in ws ==> SideShown(client, xs, x, m))
    && forall k :: k in m ==> exists x :: x in ws && k == TargetKey(x) && OnlySides(ws, x, m[k])
  }

  lemma TargetPath(x: Side)
    requires IsSide(x)
    ensures var path := if x.Plain? then x.path else BaseOf(x.writer); IsPath(path) && TargetKey(x) == Joined(path)
  {
    if !x.Plain? {
      BaseKey(x.writer);
    }
  }

  /** Sides with one key are the same plain entry, or of one writer. */
  lemma TargetsApart(x: Side, y: Side)
    requires IsSide(x) && IsSide(y) && TargetKey(x) == TargetKey(y)
    ensures (x.Plain? || y.Plain? ==> x == y) && (!x.Plain? && !y.Plain? ==> x.writer == y.writer)
  {
    TargetPath(x);
    TargetPath(y);
    JoinedInjective(if x.Plain? then x.path else BaseOf(x.writer), if y.Plain? then y.path else BaseOf(y.writer));
    BaseHasMark(x);
    BaseHasMark(y);
    hide TargetKey, Joined, IsAttribute, Blank, IsSegment;
    if !x.Plain? && !y.Plain? {
      SameBase(x.writer, y.writer);
    }
  }

  lemma BaseHasMark(x: Side)
    requires IsSide(x)
    ensures if x.Plain? then FreeOf(x.path, VALUES, 1) else !FreeOf(BaseOf(x.writer), VALUES, 1)
  {
    if !x.Plain? {
      assert BaseOf(x.writer)[|x.writer.path|] == VALUES;
    }
  }

  lemma SameBase(w: Writer, u: Writer)
    requires IsWriter(w) && IsWriter(u) && BaseOf(w) == BaseOf(u)
    ensures w == u
  {
    var full := BaseOf(w);
    assert full[|w.path|] == VALUES && BaseOf(u)[|u.path|] == VALUES;
    assert w.path <= full && u.path <= BaseOf(u);
    SplitAt(full, VALUES, 1, w.path, u.path);
    assert full[|w.path| + 1..] == w.source && BaseOf(u)[|u.path| + 1..] == u.source;
  }

  lemma NoSidesShown(client: Client, xs: seq<SidePut>)
    requires AllSides(client, xs)
    ensures Written(client, xs, {}) && ShowsSides(client, xs, {}, map[])
  {
  }

  lemma SideWords()
    ensures SENTENCE != META
  {
    assert |SENTENCE| == 8 && |META| == 4;
  }

  /** Where the node of a side goes there is nothing, or what other sides of the writer have put there. */
  lemma SideHasRoom(client: Client, xs: seq<SidePut>, ws: set<Side>, m: Fields, x: Side)
    requires AllSides(client, xs) && Written(client, xs, ws) && ShowsSides(client, xs, ws, m)
    requires IsSide(x) && LatestSide(client, xs, x).Some?
    ensures var parent := ParentAt(m, TargetKey(x));
            && SideNode(x, parent, SideValue(client, xs, x)).Ok?
            && (!x.Plain? ==> parent.Obj? && forall f :: f in parent.fields ==> IsSideField(ws, x.writer, f))
  {
    hide IsSide, LatestSide, SideValue, TargetKey, IsSideField;
    if TargetKey(x) in m {
      var y :| y in ws && TargetKey(x) == TargetKey(y) && OnlySides(ws, y, m[TargetKey(x)]);
      TargetsApart(x, y);
    }
  }

  lemma NoneNamedMeta(client: Client, xs: seq<SidePut>, ws: set<Side>, w: Writer)
    requires AllSides(client, xs) && Written(client, xs, ws)
    ensures Meta(w, META) !in ws
  {
    assert !IsSide(Meta(w, META));
  }

  lemma MetaIsEmpty(client: Client, xs: seq<SidePut>, ws: set<Side>, m: Fields, x: Side)
    requires AllSides(client, xs) && Written(client, xs, ws) && ShowsSides(client, xs, ws, m) && x.Meta? && IsSide(x)
    requires TargetKey(x) in m && m[TargetKey(x)].Obj? && META in m[TargetKey(x)].fields
    requires IsSideField(ws, x.writer, META)
    ensures m[TargetKey(x)].fields[META] == Obj(map[])
  {
    SideWords();
    NoneNamedMeta(client, xs, ws, x.writer);
    hide LatestSide, SideValue;
    var name :| Meta(x.writer, name) in ws;
    assert SideShown(client, xs, Meta(x.writer, name), m);
  }

  /** The node once the side is loaded, said field by field. */
  lemma NodeOfSide(client: Client, xs: seq<SidePut>, ws: set<Side>, m: Fields, x: Side)
    requires AllSides(client, xs) && Written(client, xs, ws) && ShowsSides(client, xs, ws, m)
    requires IsSide(x) && LatestSide(client, xs, x).Some? && !x.Plain?
    ensures var parent, v := ParentAt(m, TargetKey(x)), SideValue(client, xs, x);
            var node := SideNode(x, parent, v);
            && parent.Obj? && node.Ok? && node.value.Obj?
            && var own := if x.Sentence? then SENTENCE else x.name;
               && own in node.value.fields && node.value.fields[own] == v
               && (x.Meta? ==> META in node.value.fields && node.value.fields[META] == Obj(map[]))
               && (forall f :: f in parent.fields ==> f in node.value.fields && (f != own ==> node.value.fields[f] == parent.fields[f]))
               && forall f :: f in node.value.fields ==> f == own || f in parent.fields || (x.Meta? && f == META)
  {
    hide LatestSide, SideValue, TargetKey, IsSideField, ShowsSides, AllSides, Written;
    SideHasRoom(client, xs, ws, m, x);
    var parent := ParentAt(m, TargetKey(x));
    NamesAreNone(x);
    hide IsSide;
    if x.Meta? {
      if META in parent.fields {
        MetaIsEmpty(client, xs, ws, m, x);
      }
    }
  }

  /** One side more is shown. */
  lemma SidesGrow(client: Client, xs: seq<SidePut>, ws: set<Side>, m: Fields, x: Side)
    requires AllSides(client, xs) && Written(client, xs, ws) && ShowsSides(client, xs, ws, m)
    requires IsSide(x) && LatestSide(client, xs, x).Some?
    ensures Written(client, xs, ws + {x})
    ensures var node := SideNode(x, ParentAt(m, TargetKey(x)), SideValue(client, xs, x));
            node.Ok? && ShowsSides(client, xs, ws + {x}, m[TargetKey(x) := node.value])
  {
    hide IsSide, LatestSide, SideValue, TargetKey;
    SideHasRoom(client, xs, ws, m, x);
    var after := m[TargetKey(x) := SideNode(x, ParentAt(m, TargetKey(x)), SideValue(client, xs, x)).value];
    if !x.Plain? {
      NodeOfSide(client, xs, ws, m, x);
    }
    forall y | y in ws + {x}
      ensures SideShown(client, xs, y, after)
    {
      if y in ws && y != x {
        OtherStillShown(client, xs, ws, m, x, y);
      }
    }
    forall k | k in after
      ensures exists y :: y in ws + {x} && k == TargetKey(y) && OnlySides(ws + {x}, y, after[k])
    {
      if k == TargetKey(x) {
        NodeIsOfSides(client, xs, ws, m, x);
        assert x in ws + {x};
      } else {
        var y :| y in ws && k == TargetKey(y) && OnlySides(ws, y, m[k]);
        StillOnlySides(ws, x, y, m[k]);
        assert y in ws + {x};
      }
    }
  }

  lemma StillOnlySides(ws: set<Side>, x: Side, y: Side, node: Json)
    requires OnlySides(ws, y, node)
    ensures OnlySides(ws + {x}, y, node)
  {
    if !y.Plain? {
      forall f | f in node.fields
        ensures IsSideField(ws + {x}, y.writer, f)
      {
        FieldStays(ws, x, y.writer, f);
      }
    }
  }

  lemma FieldStays(ws: set<Side>, x: Side, w: Writer, f: Text)
    requires IsSideField(ws, w, f)
    ensures IsSideField(ws + {x}, w, f)
  {
    if name :| Meta(w, name) in ws {
      assert Meta(w, name) in ws + {x};
    }
  }

  lemma NodeIsOfSides(client: Client, xs: seq<SidePut>, ws: set<Side>, m: Fields, x: Side)
    requires AllSides(client, xs) && Written(client, xs, ws) && ShowsSides(client, xs, ws, m)
    requires IsSide(x) && LatestSide(client, xs, x).Some?
    requires SideNode(x, ParentAt(m, TargetKey(x)), SideValue(client, xs, x)).Ok?
    ensures OnlySides(ws + {x}, x, SideNode(x, ParentAt(m, TargetKey(x)), SideValue(client, xs, x)).value)
  {
    SideHasRoom(client, xs, ws, m, x);
    if !x.Plain? {
      NodeOfSide(client, xs, ws, m, x);
      var node := SideNode(x, ParentAt(m, TargetKey(x)), SideValue(client, xs, x)).value;
      hide IsSide, LatestSide, SideValue, TargetKey, ShowsSides, SideNode;
      forall f | f in node.fields
        ensures IsSideField(ws + {x}, x.writer, f)
      {
        if f in ParentAt(m, TargetKey(x)).fields {
          FieldStays(ws, x, x.writer, f);
        } else {
          assert x in ws + {x};
        }
      }
    }
  }

  lemma OtherStillShown(client: Client, xs: seq<SidePut>, ws: set<Side>, m: Fields, x: Side, y: Side)
    requires AllSides(client, xs) && Written(client, xs, ws) && ShowsSides(client, xs, ws, m)
    requires IsSide(x) && LatestSide(client, xs, x).Some? && y in ws && y != x
    requires SideNode(x, ParentAt(m, TargetKey(x)), SideValue(client, xs, x)).Ok?
    ensures SideShown(client, xs, y, m[TargetKey(x) := SideNode(x, ParentAt(m, TargetKey(x)), SideValue(client, xs, x)).value])
  {
    SideWords();
    assert SideShown(client, xs, y, m) && IsSide(y);
    NamesAreNone(x);
    NamesAreNone(y);
    if TargetKey(x) == TargetKey(y) {
      TargetsApart(x, y);
      NodeOfSide(client, xs, ws, m, x);
    }
    hide IsSide, LatestSide, SideValue, TargetKey, ShowsSides, SideNode;
  }

  lemma NamesAreNone(x: Side)
    requires IsSide(x)
    ensures x.Meta? ==> x.name != META && x.name != SENTENCE
  {
  }

  // ---------------------------------------------------------------- loading

  /** The series of the values among those of an answer. */
  function ValuesOnly(order: seq<Series>, points: Points): (rs: seq<Series>)
    ensures forall r :: r in rs ==> r in points
  {
    if order == [] then []
    else ValuesOnly(order[..|order| - 1], points) + if order[|order| - 1] in points then [order[|order| - 1]] else []
  }

  lemma {:induction false} ValuesAmong(order: seq<Series>, points: Points)
    ensures forall r :: r in ValuesOnly(order, points) <==> r in order && r in points
  {
    if order != [] {
      var n := |order| - 1;
      ValuesAmong(order[..n], points);
      assert order == order[..n] + [order[n]];
    }
  }

  /** No plain entry that was written has the path of a writer. */
  ghost predicate SidesApart(client: Client, puts: seq<Put>, xs: seq<SidePut>)
    requires AllSendable(client, puts) && AllSides(client, xs)
  {
    forall x: Side, s: Slot :: x.Plain? && LatestSide(client, xs, x).Some? && WasPut(client, puts, s) ==> x.path != s.writer.path
  }

  ghost predicate KeysOfSlots(client: Client, puts: seq<Put>, m: Fields)
    requires AllSendable(client, puts)
  {
    forall k :: k in m ==> exists s :: WasPut(client, puts, s) && k == Joined(s.writer.path)
  }

  lemma TargetIsNoPath(client: Client, puts: seq<Put>, xs: seq<SidePut>, x: Side, s: Slot)
    requires AllSendable(client, puts) && AllSides(client, xs) && SidesApart(client, puts, xs)
    requires IsSide(x) && LatestSide(client, xs, x).Some? && WasPut(client, puts, s)
    ensures TargetKey(x) != Joined(s.writer.path)
  {
    if TargetKey(x) == Joined(s.writer.path) {
      TargetPath(x);
      PathOfWriter(s.writer);
      JoinedInjective(if x.Plain? then x.path else BaseOf(x.writer), s.writer.path);
      BaseHasMark(x);
    }
  }

  lemma SideMapApart(client: Client, puts: seq<Put>, xs: seq<SidePut>, ws: set<Side>, m: Fields, mm: Fields)
    requires AllSendable(client, puts) && AllSides(client, xs) && SidesApart(client, puts, xs)
    requires Written(client, xs, ws) && ShowsSides(client, xs, ws, mm) && KeysOfSlots(client, puts, m)
    ensures m.Keys !! mm.Keys
  {
    hide IsSide, LatestSide, SideValue, TargetKey, Joined, Latest, IsSlot, SideShown, OnlySides;
    forall k | k in m
      ensures k !in mm
    {
      if k in mm {
        var s :| WasPut(client, puts, s) && k == Joined(s.writer.path);
        var x :| x in ws && k == TargetKey(x) && OnlySides(ws, x, mm[k]);
        TargetIsNoPath(client, puts, xs, x, s);
      }
    }
  }

  lemma ParentBeside(m: Fields, mm: Fields, k: Text)
    requires m.Keys !! mm.Keys
    ensures k !in mm ==> ParentAt(m + mm, k) == ParentAt(m, k)
    ensures k !in m ==> ParentAt(m + mm, k) == ParentAt(mm, k)
  {
  }

  lemma SetAmong(m: Fields, mm: Fields, k: Text, v: Json)
    requires m.Keys !! mm.Keys
    ensures k !in mm ==> (m + mm)[k := v] == m[k := v] + mm
    ensures k !in m ==> (m + mm)[k := v] == m + mm[k := v]
  {
  }

  lemma SeriesHasSide(client: Client, puts: seq<Put>, xs: seq<SidePut>, points: Points, r: Series) returns (x: Side)
    requires AllSides(client, xs) && SidesKept(client, puts, xs, points) && r in points
    ensures IsSide(x) && LatestSide(client, xs, x).Some? && r == SideSeries(x, SideFlag(puts, x))
    ensures points[r] == LatestSide(client, xs, x).value
  {
    hide IsSide, LatestSide, SideSeries, SideFlag;
    x :| IsSide(x) && LatestSide(client, xs, x).Some? && r == SideSeries(x, SideFlag(puts, x));
  }

  lemma SlotAmong(client: Client, m: Fields, mm: Fields, s: Slot, primary: bool, p: Point)
    requires IsSlot(s) && IsReadable(client, p) && m.Keys !! mm.Keys && Joined(s.writer.path) !in mm
    ensures var r := SeriesFor(s, primary);
            var alone, both := LoadSeries(client, m, r, p), LoadSeries(client, m + mm, r, p);
            && (alone.Err? ==> both == alone)
            && (alone.Ok? ==> both == Ok(alone.value + mm) && alone.value.Keys == m.Keys + {Joined(s.writer.path)})
  {
    hide LoadSeries, Joined, IsSlot, SeriesFor, LoadedInto, TakesField, IsReadable, JsonOf;
    var key := Joined(s.writer.path);
    ParentBeside(m, mm, key);
    LoadsSlot(client, m, s, primary, p);
    LoadsSlot(client, m + mm, s, primary, p);
    var v := ParentAt(m, key);
    if HasRoom(v, s, primary) {
      SetAmong(m, mm, key, Obj(LoadedInto(v.fields, s, primary, Str(client.iso(p.time)), JsonOf(client, p).value)));
    }
  }

  /** One series of a value: it is loaded as if the sides were not there. */
  lemma SlotLoadsBeside(client: Client, puts: seq<Put>, xs: seq<SidePut>, points: Points, ws: set<Side>, m: Fields, mm: Fields,
      r: Series)
    requires AllSendable(client, puts) && AllSides(client, xs) && SidesApart(client, puts, xs)
    requires Keeps(client, puts, points) && r in points
    requires Written(client, xs, ws) && ShowsSides(client, xs, ws, mm) && KeysOfSlots(client, puts, m)
    ensures var alone, both := LoadSeries(client, m, r, points[r]), LoadSeries(client, m + mm, r, points[r]);
            && (alone.Err? ==> both == alone)
            && (alone.Ok? ==> both == Ok(alone.value + mm) && KeysOfSlots(client, puts, alone.value))
  {
    hide LoadSeries, Joined, Latest, IsSlot, SeriesFor, IsReadable, LatestSide, ShowsSides, SidesApart, AllSides, Written,
         AllSendable, First;
    var s := SeriesHasSlot(client, puts, points, r);
    SideMapApart(client, puts, xs, ws, m, mm);
    NotShown(client, puts, xs, ws, mm, s);
    LatestReadable(client, puts, s);
    SlotAmong(client, m, mm, s, IsFirst(puts, s.writer), points[r]);
  }

  lemma NotShown(client: Client, puts: seq<Put>, xs: seq<SidePut>, ws: set<Side>, mm: Fields, s: Slot)
    requires AllSendable(client, puts) && AllSides(client, xs) && SidesApart(client, puts, xs) && WasPut(client, puts, s)
    requires Written(client, xs, ws) && ShowsSides(client, xs, ws, mm)
    ensures Joined(s.writer.path) !in mm
  {
    hide IsSide, LatestSide, SideValue, TargetKey, Joined, Latest, IsSlot, SideShown, OnlySides;
    var k := Joined(s.writer.path);
    if k in mm {
      var x :| x in ws && k == TargetKey(x) && OnlySides(ws, x, mm[k]);
      TargetIsNoPath(client, puts, xs, x, s);
    }
  }

  /** One series of a side. */
  lemma SideLoadsBeside(client: Client, puts: seq<Put>, xs: seq<SidePut>, points: Points, ws: set<Side>, m: Fields, mm: Fields,
      r: Series) returns (x: Side, after: Fields)
    requires AllSendable(client, puts) && AllSides(client, xs) && SidesApart(client, puts, xs)
    requires SidesKept(client, puts, xs, points) && r in points
    requires Written(client, xs, ws) && ShowsSides(client, xs, ws, mm) && KeysOfSlots(client, puts, m)
    ensures IsSide(x) && LatestSide(client, xs, x).Some? && r == SideSeries(x, SideFlag(puts, x))
    ensures LoadSeries(client, m + mm, r, points[r]) == Ok(m + after)
    ensures Written(client, xs, ws + {x}) && ShowsSides(client, xs, ws + {x}, after)
  {
    x := SeriesHasSide(client, puts, xs, points, r);
    SideMapApart(client, puts, xs, ws, m, mm);
    LatestSideReads(client, xs, x);
    SideLoads(client, m + mm, x, SideFlag(puts, x), points[r]);
    SidesGrow(client, xs, ws, mm, x);
    TargetNotSlot(client, puts, xs, m, x);
    ParentBeside(m, mm, TargetKey(x));
    hide IsSide, LatestSide, SideSeries, SideFlag, LoadSeries, JsonOf, TargetKey, SideNode, ShowsSides, CellsRead;
    var node := SideNode(x, ParentAt(mm, TargetKey(x)), SideValue(client, xs, x)).value;
    SetAmong(m, mm, TargetKey(x), node);
    after := mm[TargetKey(x) := node];
  }

  lemma TargetNotSlot(client: Client, puts: seq<Put>, xs: seq<SidePut>, m: Fields, x: Side)
    requires AllSendable(client, puts) && AllSides(client, xs) && SidesApart(client, puts, xs) && KeysOfSlots(client, puts, m)
    requires IsSide(x) && LatestSide(client, xs, x).Some?
    ensures TargetKey(x) !in m
  {
    hide IsSide, LatestSide, TargetKey, Joined, Latest, IsSlot;
    if TargetKey(x) in m {
      var s :| WasPut(client, puts, s) && TargetKey(x) == Joined(s.writer.path);
      TargetIsNoPath(client, puts, xs, x, s);
    }
  }

  /** The sides whose series are in the order. */
  ghost predicate LoadedSides(client: Client, puts: seq<Put>, order: seq<Series>, xs: seq<SidePut>, ws: set<Side>)
    requires AllSides(client, xs) && Written(client, xs, ws)
  {
    forall x :: x in ws <==> IsSide(x) && LatestSide(client, xs, x).Some? && SideSeries(x, SideFlag(puts, x)) in order
  }

  /** An answer is loaded as its values alone are, and its sides beside them. */
  lemma {:induction false} LoadsBoth(client: Client, puts: seq<Put>, xs: seq<SidePut>, a: Points, b: Points, order: seq<Series>)
    returns (ws: set<Side>, mm: Fields)
    requires AllSendable(client, puts) && AllSides(client, xs) && SidesApart(client, puts, xs)
    requires Keeps(client, puts, a) && SidesKept(client, puts, xs, b) && a.Keys !! b.Keys
    requires forall r :: r in order ==> r in a || r in b
    ensures Written(client, xs, ws) && ShowsSides(client, xs, ws, mm) && LoadedSides(client, puts, order, xs, ws)
    ensures var both, alone := LoadAll(client, map[], a + b, order), LoadAll(client, map[], a, ValuesOnly(order, a));
            && (alone.Err? ==> both == alone)
            && (alone.Ok? ==> both == Ok(alone.value + mm) && KeysOfSlots(client, puts, alone.value))
    decreases |order|
  {
    hide IsSide, LatestSide, SideSeries, SideFlag, LoadSeries, Keeps, SidesKept, ShowsSides, KeysOfSlots, SidesApart, Written;
    if order == [] {
      ws, mm := {}, map[];
      NoSidesShown(client, xs);
      NothingLoaded(client, puts, xs);
      assert map[] + mm == mm;
    } else {
      var n := |order| - 1;
      var r := order[n];
      ws, mm := LoadsBoth(client, puts, xs, a, b, order[..n]);
      assert r in order;
      assert ValuesOnly(order, a) == ValuesOnly(order[..n], a) + if r in a then [r] else [];
      var alone := LoadAll(client, map[], a, ValuesOnly(order[..n], a));
      var m := if alone.Ok? then alone.value else map[];
      NoKeys(client, puts);
      LastOfBoth(client, a, b, order);
      if r in a {
        LastValue(client, a, ValuesOnly(order[..n], a), r);
        SlotLoadsBeside(client, puts, xs, a, ws, m, mm, r);
        NoSideMore(client, puts, xs, order, ws, a);
      } else {
        var x;
        var before := ws;
        var after;
        x, after := SideLoadsBeside(client, puts, xs, b, ws, m, mm, r);
        assert ValuesOnly(order[..n], a) + [] == ValuesOnly(order[..n], a);
        ws, mm := before + {x}, after;
        OneSideMore(client, puts, xs, order, before, x);
      }
    }
  }

  lemma LastOfBoth(client: Client, a: Points, b: Points, order: seq<Series>)
    requires order != [] && (forall r :: r in order ==> r in a || r in b) && a.Keys !! b.Keys
    ensures var n := |order| - 1;
            var before, r := LoadAll(client, map[], a + b, order[..n]), order[n];
            LoadAll(client, map[], a + b, order) ==
              if before.Err? then before else LoadSeries(client, before.value, r, if r in a then a[r] else b[r])
  {
    hide LoadSeries;
  }

  lemma LastValue(client: Client, a: Points, rs: seq<Series>, r: Series)
    requires (forall q :: q in rs ==> q in a) && r in a
    ensures LoadAll(client, map[], a, rs + [r]) ==
            var before := LoadAll(client, map[], a, rs);
            if before.Err? then before else LoadSeries(client, before.value, r, a[r])
  {
    hide LoadSeries;
    assert (rs + [r])[..|rs|] == rs;
  }

  lemma NothingLoaded(client: Client, puts: seq<Put>, xs: seq<SidePut>)
    requires AllSendable(client, puts) && AllSides(client, xs)
    ensures Written(client, xs, {}) && LoadedSides(client, puts, [], xs, {}) && KeysOfSlots(client, puts, map[])
  {
  }

  lemma NoKeys(client: Client, puts: seq<Put>)
    requires AllSendable(client, puts)
    ensures KeysOfSlots(client, puts, map[])
  {
  }

  lemma NoSideMore(client: Client, puts: seq<Put>, xs: seq<SidePut>, order: seq<Series>, ws: set<Side>, a: Points)
    requires AllSendable(client, puts) && AllSides(client, xs) && Written(client, xs, ws) && Keeps(client, puts, a)
    requires order != [] && order[|order| - 1] in a && LoadedSides(client, puts, order[..|order| - 1], xs, ws)
    ensures LoadedSides(client, puts, order, xs, ws)
  {
    hide IsSide, LatestSide, SideSeries, SideFlag, Keeps;
    var n := |order| - 1;
    forall x | IsSide(x)
      ensures SideSeries(x, SideFlag(puts, x)) in order <==> SideSeries(x, SideFlag(puts, x)) in order[..n]
    {
      SlotsOnly(client, puts, a, x, SideFlag(puts, x));
      assert order == order[..n] + [order[n]];
    }
  }

  lemma OneSideMore(client: Client, puts: seq<Put>, xs: seq<SidePut>, order: seq<Series>, ws: set<Side>, x: Side)
    requires AllSides(client, xs) && Written(client, xs, ws) && Written(client, xs, ws + {x}) && IsSide(x)
    requires order != [] && order[|order| - 1] == SideSeries(x, SideFlag(puts, x))
    requires LoadedSides(client, puts, order[..|order| - 1], xs, ws)
    ensures LoadedSides(client, puts, order, xs, ws + {x})
  {
    hide IsSide, LatestSide, SideSeries, SideFlag;
    var n := |order| - 1;
    assert order == order[..n] + [order[n]];
    forall y | IsSide(y) && SideSeries(y, SideFlag(puts, y)) == order[n]
      ensures y == x
    {
      SideSeriesDiffer(x, y, SideFlag(puts, x), SideFlag(puts, y));
    }
  }

  // ---------------------------------------------------------------- store, then load

  ghost function SidesWritten(xs: seq<SidePut>): set<Side> {
    set i | 0 <= i < |xs| :: xs[i].side
  }

  lemma SidesAreWritten(client: Client, xs: seq<SidePut>)
    requires AllSides(client, xs)
    ensures Written(client, xs, SidesWritten(xs))
    ensures forall x :: x in SidesWritten(xs) <==> IsSide(x) && LatestSide(client, xs, x).Some?
  {
    hide IsStorable, LatestSide;
    forall x
      ensures x in SidesWritten(xs) <==> IsSide(x) && LatestSide(client, xs, x).Some?
    {
      WrittenSide(client, xs, x);
    }
  }

  /** The loaded map is that of the values and that of the sides, which have no key in common. */
  ghost predicate ShownApart(client: Client, puts: seq<Put>, xs: seq<SidePut>, all: Fields, m: Fields, mm: Fields)
    requires AllSendable(client, puts) && AllSides(client, xs)
  {
    && all == m + mm && m.Keys !! mm.Keys
    && Wrote(client, puts, Slots(puts)) && ShowsAll(client, puts, Slots(puts), m)
    && Written(client, xs, SidesWritten(xs)) && ShowsSides(client, xs, SidesWritten(xs), mm)
  }

  ghost predicate AllLoadsBack(client: Client, puts: seq<Put>, xs: seq<SidePut>, points: Points, order: seq<Series>)
    requires AllSendable(client, puts) && AllSides(client, xs)
  {
    IsAnswer(points, order) ==>
      var loaded := LoadAll(client, map[], points, order);
      loaded.Ok? && exists m, mm :: ShownApart(client, puts, xs, loaded.value, m, mm)
  }

  lemma RunSidesApart(client: Client, run: seq<Saving>)
    requires AllSavings(client, run) && PathsApart(run)
    ensures AllSent(client, Core(run)) && SidesApart(client, AllPuts(client, Core(run)), RunSides(client, run))
  {
    CoreIsSent(client, run);
    var puts, xs := AllPuts(client, Core(run)), RunSides(client, run);
    hide IsSaving, IsSent, PutsOf, IsSlot, Latest, LatestSide, IsSide, IsStorable;
    forall x: Side, s: Slot | x.Plain? && LatestSide(client, xs, x).Some? && WasPut(client, puts, s)
      ensures x.path != s.writer.path
    {
      WrittenSide(client, xs, x);
      var a :| 0 <= a < |xs| && xs[a].side == x;
      PlainIsOfRun(client, run, a);
      var i :| 0 <= i < |run| && run[i].OfPlain? && run[i].path == x.path;
      LatestOfSlots(client, puts, s);
      var b :| 0 <= b < |puts| && puts[b].slot == s;
      var c := PutIsSent(client, Core(run), b);
      EntryIsOfRun(run, c);
      var j :| 0 <= j < |run| && run[j].OfEntry? && run[j].sent.writer == Core(run)[c].writer
               && run[j].sent.value == Core(run)[c].value;
      assert SavesValue(run[j]);
    }
  }

  /** Every put of a run is of one of its entries. */
  lemma {:induction false} PutIsSent(client: Client, run: seq<Sent>, i: nat) returns (j: nat)
    requires AllSent(client, run) && i < |AllPuts(client, run)|
    ensures j < |run| && run[j].writer == AllPuts(client, run)[i].slot.writer && run[j].value != Object([])
  {
    hide IsSent, PutsOf;
    var n := |run| - 1;
    var before := AllPuts(client, run[..n]);
    if i < |before| {
      j := PutIsSent(client, run[..n], i);
    } else {
      j := n;
      PutsOfWriter(client, run[n]);
      assert AllPuts(client, run)[i] == PutsOf(client, run[n])[i - |before|];
    }
  }

  lemma {:induction false} EntryHasPut(client: Client, run: seq<Saving>, j: nat) returns (i: nat)
    requires AllSavings(client, run) && AllSent(client, Core(run)) && j < |run| && SavesValue(run[j])
    ensures i < |AllPuts(client, Core(run))| && AllPuts(client, Core(run))[i].slot.writer == run[j].sent.writer
  {
    hide IsSaving, IsSent, PutsOf, AllPuts, Core, AllSent, SavesValue;
    var n := |run| - 1;
    LastPuts(client, run);
    if j < n {
      i := EntryHasPut(client, run[..n], j);
    } else {
      i := |AllPuts(client, Core(run[..n]))|;
    }
  }

  lemma LastPuts(client: Client, run: seq<Saving>)
    requires AllSavings(client, run) && AllSent(client, Core(run)) && run != []
    ensures AllSent(client, Core(run[..|run| - 1]))
    ensures var before, puts := AllPuts(client, Core(run[..|run| - 1])), AllPuts(client, Core(run));
            && before <= puts
            && (SavesValue(run[|run| - 1]) ==> |before| < |puts| && puts[|before|].slot.writer == run[|run| - 1].sent.writer)
  {
    hide IsSaving, IsSent, PutsOf;
    var n := |run| - 1;
    CoreIsSent(client, run[..n]);
    SavingIs(client, run[n]);
    if run[n].OfEntry? {
      RichIsSent(client, run[n].sent);
      CorePush(client, run[..n], run[n].sent, 0);
      PutsOfWriter(client, CoreOf(run[n].sent));
    }
  }

  lemma {:induction false} PlainHasSide(client: Client, run: seq<Saving>, j: nat) returns (i: nat)
    requires AllSavings(client, run) && j < |run| && run[j].OfPlain?
    ensures i < |RunSides(client, run)| && RunSides(client, run)[i].side == Plain(run[j].path)
  {
    hide IsRich, IsPlainSave, IsSide, IsStorable;
    var n := |run| - 1;
    if j < n {
      i := PlainHasSide(client, run[..n], j);
    } else {
      i := |RunSides(client, run[..n])|;
    }
  }

  /** A path of both kinds cannot be shown as both. */
  lemma SharedPathFails(client: Client, run: seq<Saving>, points: Points, order: seq<Series>)
    requires AllSavings(client, run) && AllSent(client, Core(run)) && !PathsApart(run) && IsAnswer(points, order)
    ensures !AllLoadsBack(client, AllPuts(client, Core(run)), RunSides(client, run), points, order)
  {
    var i, j :| 0 <= i < |run| && 0 <= j < |run| && run[i].OfPlain? && SavesValue(run[j]) && run[i].path == run[j].sent.writer.path;
    var a := EntryHasPut(client, run, j);
    var b := PlainHasSide(client, run, i);
    var puts, xs := AllPuts(client, Core(run)), RunSides(client, run);
    hide IsSaving, IsSent, PutsOf, IsSlot, Latest, LatestSide, IsSide, IsStorable, SideValue, Shows, Joined, LoadAll;
    forall all, m, mm
      ensures !ShownApart(client, puts, xs, all, m, mm)
    {
      if ShownApart(client, puts, xs, all, m, mm) {
        KeysShown(client, puts, xs, all, m, mm, a, b);
      }
    }
  }

  lemma KeysShown(client: Client, puts: seq<Put>, xs: seq<SidePut>, all: Fields, m: Fields, mm: Fields, a: nat, b: nat)
    requires AllSendable(client, puts) && AllSides(client, xs) && ShownApart(client, puts, xs, all, m, mm)
    requires a < |puts| && b < |xs|
    ensures m.Keys !! mm.Keys && Joined(puts[a].slot.writer.path) in m && TargetKey(xs[b].side) in mm
  {
    hide IsSlot, Latest, LatestSide, IsSide, IsStorable, SideValue, Shows, Joined;
    assert puts[a].slot in Slots(puts);
    assert xs[b].side in SidesWritten(xs) && SideShown(client, xs, xs[b].side, mm);
  }

  lemma KindsLoad(client: Client, puts: seq<Put>, xs: seq<SidePut>, a: Points, b: Points, order: seq<Series>)
    requires AllSendable(client, puts) && AllSides(client, xs) && SidesApart(client, puts, xs) && OneKind(client, puts)
    requires Keeps(client, puts, a) && SidesKept(client, puts, xs, b) && a.Keys !! b.Keys
    ensures AllLoadsBack(client, puts, xs, a + b, order)
  {
    hide IsSide, LatestSide, SideSeries, SideFlag, SidesApart, ShowsSides, Latest, IsSlot, ShowsAll, LoadAll, IsStorable, Sendable;
    if IsAnswer(a + b, order) {
      var ws, mm := LoadsBoth(client, puts, xs, a, b, order);
      ValuesAmong(order, a);
      AllLoaded(client, puts, a, ValuesOnly(order, a));
      SidesAreWritten(client, xs);
      AllSidesLoaded(client, puts, xs, b, order, ws);
      var m := LoadAll(client, map[], a, ValuesOnly(order, a)).value;
      SideMapApart(client, puts, xs, ws, m, mm);
      assert ShownApart(client, puts, xs, m + mm, m, mm);
    }
  }

  lemma AllSidesLoaded(client: Client, puts: seq<Put>, xs: seq<SidePut>, b: Points, order: seq<Series>, ws: set<Side>)
    requires AllSides(client, xs) && Written(client, xs, ws) && LoadedSides(client, puts, order, xs, ws)
    requires SidesKept(client, puts, xs, b) && forall r :: r in b ==> r in order
    ensures ws == SidesWritten(xs)
  {
    SidesAreWritten(client, xs);
    hide IsSide, LatestSide, SideSeries, SideFlag, IsStorable;
    forall x | IsSide(x) && LatestSide(client, xs, x).Some?
      ensures SideSeries(x, SideFlag(puts, x)) in order
    {
      assert SideSeries(x, SideFlag(puts, x)) in b;
    }
    assert forall x :: x in ws <==> x in SidesWritten(xs);
  }

  lemma {:induction false} ValuesOfBoth(p: seq<Series>, q: seq<Series>, points: Points)
    ensures ValuesOnly(p + q, points) == ValuesOnly(p, points) + ValuesOnly(q, points)
    decreases |q|
  {
    if q == [] {
      assert p + q == p;
    } else {
      var n := |q| - 1;
      var all := p + q;
      assert all[..|all| - 1] == p + q[..n] && all[|all| - 1] == q[n];
      ValuesOfBoth(p, q[..n], points);
    }
  }

  lemma {:induction false} ValuesAre(p: seq<Series>, points: Points)
    ensures (forall r :: r in p ==> r in points) ==> ValuesOnly(p, points) == p
    ensures (forall r :: r in p ==> r !in points) ==> ValuesOnly(p, points) == []
  {
    if p != [] {
      var n := |p| - 1;
      ValuesAre(p[..n], points);
      assert p == p[..n] + [p[n]];
    }
  }

  lemma MixedKindsFail(client: Client, puts: seq<Put>, xs: seq<SidePut>, a: Points, b: Points) returns (order: seq<Series>)
    requires AllSendable(client, puts) && AllSides(client, xs) && SidesApart(client, puts, xs) && !OneKind(client, puts)
    requires Keeps(client, puts, a) && SidesKept(client, puts, xs, b) && a.Keys !! b.Keys
    ensures !AllLoadsBack(client, puts, xs, a + b, order)
  {
    hide IsSide, LatestSide, SideSeries, SideFlag, SidesApart, ShowsSides, Latest, IsSlot, ShowsAll, LoadAll, IsStorable, Sendable,
      OneKind, Keeps, SidesKept, ShownApart, LoadedSides, Written;
    var first := MixedOrder(client, puts, a);
    var rest := Enumerated(b.Keys);
    order := first + rest;
    ValuesOfBoth(first, rest, a);
    ValuesAre(first, a);
    ValuesAre(rest, a);
    assert first + [] == first;
    var ws, mm := LoadsBoth(client, puts, xs, a, b, order);
  }

  /**
   * Store, then load: after any run of saves of values and objects, of plain values and arrays, of sentences and meta data,
   * in whatever order the series come back, each path shows its sources, each plain entry its latest value, and the key of
   * each entry its sentence and its meta data, and there is nothing else. This holds exactly if no plain entry has the path of
   * a writer, and no first source mixes values with objects.
   */
  lemma MixedStoreThenLoad(client: Client, run: seq<Saving>, now: int)
    requires AllSavings(client, run)
    ensures AllSent(client, Core(run))
    ensures PathsApart(run) && OneKind(client, AllPuts(client, Core(run))) <==>
              forall order :: AllLoadsBack(client, AllPuts(client, Core(run)), RunSides(client, run), MixedRun(client, run, now).points, order)
  {
    hide AllSavings, AllSent, PathsApart, AllLoadsBack, AllPuts, RunSides, Core, AllSendable, AllSides, OneKind, MixedRun;
    CoreIsSent(client, run);
    if PathsApart(run) {
      ApartThenLoad(client, run, now);
    } else {
      var order := NotAllLoad(client, run, MixedRun(client, run, now).points);
      assert !AllLoadsBack(client, AllPuts(client, Core(run)), RunSides(client, run), MixedRun(client, run, now).points, order);
    }
  }

  lemma NotAllLoad(client: Client, run: seq<Saving>, points: Points) returns (order: seq<Series>)
    requires AllSavings(client, run) && AllSent(client, Core(run)) && !PathsApart(run)
    ensures !AllLoadsBack(client, AllPuts(client, Core(run)), RunSides(client, run), points, order)
  {
    hide AllSavings, AllSent, PathsApart, AllLoadsBack, AllPuts, RunSides, Core, IsAnswer, AllSendable, AllSides;
    order := SomeAnswer(points);
    SharedPathFails(client, run, points, order);
  }

  lemma SomeAnswer(points: Points) returns (order: seq<Series>)
    ensures IsAnswer(points, order)
  {
    order := Enumerated(points.Keys);
  }

  lemma ApartThenLoad(client: Client, run: seq<Saving>, now: int)
    requires AllSavings(client, run) && PathsApart(run) && AllSent(client, Core(run))
    ensures OneKind(client, AllPuts(client, Core(run))) <==>
              forall order :: AllLoadsBack(client, AllPuts(client, Core(run)), RunSides(client, run), MixedRun(client, run, now).points, order)
  {
    var puts, xs := AllPuts(client, Core(run)), RunSides(client, run);
    var b := MixedHolds(client, run, run, now);
    RunSidesApart(client, run);
    RunHolds(client, Core(run), now);
    var a := Run(client, Core(run), now).points;
    hide IsSaving, IsSent, OneKind, AllLoadsBack, AllPuts, RunSides, Keeps, SidesKept, AllVoted, AllSendable, AllSides, Run, Core,
      PathsApart, SidesApart;
    PointsApart(client, puts, xs, a, b, puts);
    KindsThenLoad(client, puts, xs, a, b);
  }

  lemma KindsThenLoad(client: Client, puts: seq<Put>, xs: seq<SidePut>, a: Points, b: Points)
    requires AllSendable(client, puts) && AllSides(client, xs) && SidesApart(client, puts, xs)
    requires Keeps(client, puts, a) && SidesKept(client, puts, xs, b) && a.Keys !! b.Keys
    ensures OneKind(client, puts) <==> forall order :: AllLoadsBack(client, puts, xs, a + b, order)
  {
    hide OneKind, AllLoadsBack, Keeps, SidesKept, AllSendable, AllSides, SidesApart;
    if OneKind(client, puts) {
      forall order
        ensures AllLoadsBack(client, puts, xs, a + b, order)
      {
        KindsLoad(client, puts, xs, a, b, order);
      }
    } else {
      var order := MixedKindsFail(client, puts, xs, a, b);
    }
  }

  // ---------------------------------------------------------------- what was saved last

  /** The put is the latest of its side: later than all others. */
  predicate IsLatestSide(xs: seq<SidePut>, i: nat) {
    i < |xs| && forall j :: 0 <= j < |xs| && j != i && xs[j].side == xs[i].side ==> xs[j].millis < xs[i].millis
  }

  lemma {:induction false} SideBounded(client: Client, xs: seq<SidePut>, x: Side, bound: int)
    requires AllSides(client, xs) && forall j :: 0 <= j < |xs| && xs[j].side == x ==> xs[j].millis < bound
    ensures LatestSide(client, xs, x).Some? ==> LatestSide(client, xs, x).value.time < bound
  {
    hide IsSide, IsStorable, IsSaved, FieldOf;
    if xs != [] {
      var n := |xs| - 1;
      SideBounded(client, xs[..n], x, bound);
      StorableReadsBack(client, xs[n].doc, xs[n].millis);
    }
  }

  /** What is shown of a side is what was saved last. */
  lemma {:induction false} SideShownIsSaved(client: Client, xs: seq<SidePut>, i: nat)
    requires AllSides(client, xs) && IsLatestSide(xs, i)
    ensures LatestSide(client, xs, xs[i].side).Some? && SideValue(client, xs, xs[i].side) == ValueOf(xs[i].doc)
  {
    hide IsSide, IsStorable, IsSaved, FieldOf, JsonOf, CellsRead;
    var n := |xs| - 1;
    StorableReadsBack(client, xs[n].doc, xs[n].millis);
    if i == n {
      SideBounded(client, xs[..n], xs[i].side, xs[i].millis);
    } else {
      assert IsLatestSide(xs[..n], i);
      SideShownIsSaved(client, xs[..n], i);
      LatestTime(client, xs[..n], i);
    }
  }

  lemma {:induction false} LatestTime(client: Client, xs: seq<SidePut>, i: nat)
    requires AllSides(client, xs) && IsLatestSide(xs, i) && LatestSide(client, xs, xs[i].side).Some?
    ensures LatestSide(client, xs, xs[i].side).value.time == xs[i].millis
  {
    hide IsSide, IsStorable, IsSaved, FieldOf, JsonOf, CellsRead;
    var n := |xs| - 1;
    StorableReadsBack(client, xs[n].doc, xs[n].millis);
    if i == n {
      SideBounded(client, xs[..n], xs[i].side, xs[i].millis);
    } else {
      assert IsLatestSide(xs[..n], i);
      SideShownIsSaved(client, xs[..n], i);
      LatestTime(client, xs[..n], i);
    }
  }

  // ---------------------------------------------------------------- one plain entry

  /** What an empty store has of one plain entry: a boolean for null, which is read as a text and fails. */
  lemma OnePlain(client: Client, path: seq<Text>, doc: Doc, now: int)
    requires IsPlainPath(path) && IsStorable(client, doc)
    ensures var v := if doc == Scalar(Null) then JavaNull else Of(doc);
            && IsSaved(client, v)
            && EntrySaved(client, Db(map[], map[]), Joined(path), doc, now) ==
               (Db(map[SideSeries(Plain(path), true) := PointFor(client, v, now)], map[Joined(path) := SELF]), Ok(()))
            && JsonOf(client, PointFor(client, v, now)) == if doc == Scalar(Null) then Err(ClassCast) else Ok(ValueOf(doc))
  {
    StorableReadsBack(client, doc, now);
    var v := if doc == Scalar(Null) then JavaNull else Of(doc);
    assert IsSaved(client, v);
    var db := Db(map[], map[]);
    SideIsWritten(client, db, Plain(path), v, now);
    ElectsItself(Plain(path));
    PlainKeyRead(path);
    BlankNothing();
    var call := Call(Joined(path), SELF, now, v);
    hide Joined, Blank, IndexOf, SaveData, IsStorable, EndsWith, PrimaryKey, SideSeries, JsonOf, PointFor, IsSaved, FieldOf;
    assert SubstringAfter(Joined(path), DOT_VALUES_DOT) == [];
    assert [call][..0] == [] && [call][0] == call;
    assert SaveAll(client, db, []) == (db, Ok(()));
    assert SaveAll(client, db, [call]) == SaveData(client, db, call);
  }

  lemma {:induction false} LoadsOver(client: Client, points: Points, order: seq<Series>, r: Series, k: Text, v: Result<Json>)
    requires points.Keys == {r} && (forall q :: q in order ==> q == r) && order != []
    requires forall m :: LoadSeries(client, m, r, points[r]) == if v.Ok? then Ok(m[k := v.value]) else Err(v.error)
    ensures LoadAll(client, map[], points, order) == if v.Ok? then Ok(map[k := v.value]) else Err(v.error)
  {
    hide LoadSeries;
    var n := |order| - 1;
    assert order[n] in order && order[n] == r;
    assert forall q :: q in order[..n] ==> q in order;
    if n == 0 {
      assert LoadAll(client, map[], points, order[..0]) == Ok(map[]);
    } else {
      assert order[0] in order[..n];
      LoadsOver(client, points, order[..n], r, k, v);
      if v.Ok? {
        assert map[k := v.value][k := v.value] == map[k := v.value];
      }
    }
  }

  lemma PlainSeriesLoads(client: Client, path: seq<Text>, p: Point)
    requires IsPlainPath(path)
    ensures forall m :: LoadSeries(client, m, SideSeries(Plain(path), true), p) ==
              var v := JsonOf(client, p); if v.Ok? then Ok(m[Joined(path) := v.value]) else Err(v.error)
  {
    var x := Plain(path);
    forall m
      ensures LoadSeries(client, m, SideSeries(x, true), p) ==
              var v := JsonOf(client, p); if v.Ok? then Ok(m[Joined(path) := v.value]) else Err(v.error)
    {
      if JsonOf(client, p).Ok? {
        SideLoads(client, m, x, true, p);
      }
    }
  }

  /** A plain entry saved into an empty store and loaded is there again, and nothing else, exactly if it is not null. */
  lemma PlainComesBack(client: Client, path: seq<Text>, doc: Doc, now: int, order: seq<Series>)
    requires IsPlainPath(path) && IsStorable(client, doc)
    ensures var (db, end) := EntrySaved(client, Db(map[], map[]), Joined(path), doc, now);
            && end == Ok(())
            && (IsAnswer(db.points, order) ==>
                  LoadAll(client, map[], db.points, order) ==
                  if doc == Scalar(Null) then Err(ClassCast) else Ok(map[Joined(path) := ValueOf(doc)]))
  {
    OnePlain(client, path, doc, now);
    var v := if doc == Scalar(Null) then JavaNull else Of(doc);
    var r, p := SideSeries(Plain(path), true), PointFor(client, v, now);
    PlainSeriesLoads(client, path, p);
    hide EntrySaved, LoadSeries, Joined, IsStorable, JsonOf, SideSeries, PointFor, IsPlainPath;
    var points := map[r := p];
    if IsAnswer(points, order) {
      assert r in order;
      LoadsOver(client, points, order, r, Joined(path), JsonOf(client, p));
    }
  }

  /** The same through the service. */
  method SaveThenLoad(client: Client, path: seq<Text>, doc: Doc, now: int) returns (r: Result<Fields>)
    requires IsPlainPath(path) && IsStorable(client, doc)
    ensures r == if doc == Scalar(Null) then Err(ClassCast) else Ok(map[Joined(path) := ValueOf(doc)])
  {
    OnePlain(client, path, doc, now);
    hide EntrySaved, LoadAll, Joined, IsStorable, JsonOf, SideSeries, PointFor, IsPlainPath;
    var service := new InfluxDbService();
    var end := service.SaveEntry(client, Joined(path), doc, now);
    var v := if doc == Scalar(Null) then JavaNull else Of(doc);
    assert service.points == map[SideSeries(Plain(path), true) := PointFor(client, v, now)];
    assert SideSeries(Plain(path), true) in service.points;
    var s :| s in service.points;
    PlainComesBack(client, path, doc, now, [s]);
    r := service.LoadData(client, map[], [s]);
  }
}
