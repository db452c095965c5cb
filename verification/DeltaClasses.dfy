/** Which context, time, source and path the entries of the flat map are grouped by, said by the parts of their keys. */
module DeltaClasses {
  import opened Units
  import opened JsonValues
  import opened ReaderSpec
  import opened Pointers
  import opened SignalKKeys
  import opened FullFormat
  import opened ArrayMerging
  import opened DeltaFormat
  import opened DeltaRoundTrip
  import opened FullEntries

  // ---------------------------------------------------------------- contexts

  /** The sections whose contexts are one name below them. */
  predicate IsSection(section: Text) {
    section in {Chars("vessels"), Chars("config"), Chars("list.vessels")}
  }

  lemma {:induction false} PaddedInFront(a: Text, s: Text)
    requires forall i :: 0 <= i < |a| ==> a[i] <= 0x20
    ensures Trim(a + s) == Trim(s)
  {
    if a == [] {
      assert a + s == s;
    } else {
      assert (a + s)[1..] == a[1..] + s;
      PaddedInFront(a[1..], s);
    }
  }

  lemma {:induction false} PaddedBehind(t: Text, b: Text)
    requires t != [] && t[0] > 0x20 && t[|t| - 1] > 0x20 && forall i :: 0 <= i < |b| ==> b[i] <= 0x20
    ensures Trim(t + b) == t
  {
    if b == [] {
      assert t + b == t;
    } else {
      assert (t + b)[..|t + b| - 1] == t + b[..|b| - 1];
      PaddedBehind(t, b[..|b| - 1]);
    }
  }

  /** White space and control characters around a path are left out. */
  lemma Padded(a: Text, t: Text, b: Text)
    requires (forall i :: 0 <= i < |a| ==> a[i] <= 0x20) && forall i :: 0 <= i < |b| ==> b[i] <= 0x20
    requires t != [] && t[0] > 0x20 && t[|t| - 1] > 0x20
    ensures Trim(a + t + b) == t && GetContext(a + t + b) == GetContext(t)
  {
    hide Trim, GetContext;
    Regrouped(a, t, b);
    PaddedInFront(a, t + b);
    PaddedBehind(t, b);
    PaddedBehind(t, []);
    assert t + [] == t;
    ContextOfTrim(a + t + b, t);
  }

  lemma ContextOfTrim(s: Text, t: Text)
    requires Trim(s) == Trim(t)
    ensures GetContext(s) == GetContext(t)
  {
    hide Trim, Blank, UpToDot, IndexOf;
  }

  lemma {:induction false} TrimStaysBlank(t: Text)
    requires Blank(t)
    ensures Blank(Trim(t))
    decreases |t|
  {
    if t != [] && t[0] <= SPACE {
      TrimStaysBlank(t[1..]);
    } else if t != [] && t[|t| - 1] <= SPACE {
      TrimStaysBlank(t[..|t| - 1]);
    }
  }

  lemma BlankHasNone(t: Text)
    requires forall i :: 0 <= i < |t| ==> IsWhitespace(t[i])
    ensures GetContext(t) == []
  {
    TrimStaysBlank(t);
  }

  /** Up to the first dot behind a place where a name stands. */
  lemma NameUpToDot(t: Text, from: nat, name: Text, rest: Text)
    requires from <= |t| && t[from..] == name + rest && DOT !in name && (rest == [] || rest[0] == DOT)
    ensures UpToDot(t, from) == t[..from + |name|]
  {
    hide IndexOf;
    var q := name + rest;
    forall j | 0 <= j < |name|
      ensures !([DOT] <= q[j..])
    {
      assert q[j..][0] == name[j];
    }
    if rest == [] {
      forall j | 0 <= j <= |q|
        ensures !([DOT] <= q[j..])
      {
        assert j < |name| || q[j..] == [];
      }
      Nowhere(q, [DOT]);
      assert t[..from + |name|] == t;
    } else {
      assert q[|name|..] == rest;
      FirstAt(q, [DOT], |name|);
    }
  }

  lemma SectionsApart(t: Text)
    ensures Chars("vessels.") <= t ==> !(RESOURCES + [DOT] <= t) && !(SOURCES + [DOT] <= t) && !(CONFIG + [DOT] <= t)
    ensures Chars("vessels.") <= t ==> t != RESOURCES && t != SOURCES && t != CONFIG && t != VESSELS && VESSELS + [DOT] <= t
    ensures Chars("config.") <= t ==> !(RESOURCES + [DOT] <= t) && !(SOURCES + [DOT] <= t) && CONFIG + [DOT] <= t
    ensures Chars("config.") <= t ==> t != RESOURCES && t != SOURCES && t != CONFIG && t != VESSELS
    ensures Chars("list.vessels.") <= t ==> !(RESOURCES + [DOT] <= t) && !(SOURCES + [DOT] <= t) && !(CONFIG + [DOT] <= t)
    ensures Chars("list.vessels.") <= t ==> t != RESOURCES && t != SOURCES && t != CONFIG && t != VESSELS
    ensures Chars("list.vessels.") <= t ==> !(VESSELS + [DOT] <= t) && LIST + [DOT] + VESSELS + [DOT] <= t
  {
    WordsSpelled();
    DottedWords();
    FirstLetters(t);
    hide Chars;
    assert |VESSELS| == 7 && |CONFIG| == 6;
  }

  lemma DottedWords()
    ensures Chars("vessels.") == VESSELS + [DOT] && Chars("config.") == CONFIG + [DOT]
    ensures Chars("list.vessels.") == LIST + [DOT] + VESSELS + [DOT] && Chars("list.vessels") == LIST + [DOT] + VESSELS
  {
  }

  lemma FirstLetters(t: Text)
    ensures VESSELS + [DOT] <= t ==> t[0] == 0x76 && |t| >= 8
    ensures CONFIG + [DOT] <= t ==> t[0] == 0x63 && |t| >= 7
    ensures LIST + [DOT] + VESSELS + [DOT] <= t ==> t[0] == 0x6C && |t| >= 13
    ensures RESOURCES + [DOT] <= t ==> t[0] == 0x72
    ensures SOURCES + [DOT] <= t ==> t[0] == 0x73
    ensures RESOURCES[0] == 0x72 && SOURCES[0] == 0x73 && CONFIG[0] == 0x63 && VESSELS[0] == 0x76
  {
  }

  lemma ListVesselsAt(t: Text)
    requires Chars("list.vessels.") <= t
    ensures IndexOf(t, VESSELS) == 5
  {
    DottedWords();
    hide IndexOf;
    var w := LIST + [DOT] + VESSELS + [DOT];
    assert forall i :: 0 <= i < |w| ==> t[i] == w[i];
    forall j | 0 <= j < 5
      ensures !(VESSELS <= t[j..])
    {
      assert t[j..][0] == w[j] != VESSELS[0];
    }
    assert VESSELS <= t[5..];
    FirstAt(t, VESSELS, 5);
  }

  /** The context of a key in these sections is the name below the section. */
  lemma NamedContext(section: Text, name: Text, rest: Text)
    requires IsSection(section) && IsSegment(name) && (rest == [] || rest[0] == DOT)
    requires var t := section + [DOT] + name + rest; t[|t| - 1] > 0x20
    ensures GetContext(section + [DOT] + name + rest) == section + [DOT] + name
  {
    var head := section + [DOT];
    var t := head + name + rest;
    HeadOfSection(section);
    hide Chars, IsSection, Blank, IndexOf;
    Regrouped(head, name, rest);
    assert head <= t && t[|head|..] == name + rest && t[..|head| + |name|] == head + name;
    NameUpToDot(t, |head|, name, rest);
    hide UpToDot;
    assert t[0] > 0x20 by { FirstLetters(t); }
    assert Trim(t) == t;
    hide Trim;
    HeadDecides(head, t);
  }

  lemma HeadOfSection(section: Text)
    requires IsSection(section)
    ensures section + [DOT] in {VESSELS + [DOT], CONFIG + [DOT], LIST + [DOT] + VESSELS + [DOT]}
  {
    WordsSpelled();
    DottedWords();
    hide Chars;
  }

  lemma HeadDecides(head: Text, t: Text)
    requires head in {VESSELS + [DOT], CONFIG + [DOT], LIST + [DOT] + VESSELS + [DOT]} && head <= t && Trim(t) == t
    ensures GetContext(t) == UpToDot(t, |head|)
  {
    DottedWords();
    SectionsApart(t);
    FirstLetters(t);
    NotBlank(t);
    hide Trim, UpToDot, IndexOf, Blank, Chars;
    assert |VESSELS| == 7 && |CONFIG| == 6 && |LIST| == 4;
    if head == VESSELS + [DOT] {
      FullyFirst(t);
    } else if head == LIST + [DOT] + VESSELS + [DOT] {
      ListVesselsAt(t);
    }
  }

  lemma NotBlank(t: Text)
    requires t != [] && t[0] in {0x76, 0x63, 0x6C}
    ensures !Blank(t)
  {
  }

  lemma FullyFirst(t: Text)
    requires VESSELS + [DOT] <= t
    ensures IndexOf(t, VESSELS) == 0
  {
    assert VESSELS <= t;
  }

  /** Any other path is its own context. */
  lemma OtherContext(t: Text)
    requires t != [] && t[0] > 0x20 && t[|t| - 1] > 0x20 && !Blank(t)
    requires !(Chars("vessels.") <= t) && !(Chars("config.") <= t) && !(Chars("list.vessels.") <= t)
    ensures GetContext(t) == t
  {
    DottedWords();
    hide Blank, UpToDot, IndexOf, Chars;
  }

  // ---------------------------------------------------------------- classes

  /** An entry below a name: its path there, and the source that its key names. */
  datatype Named = Named(section: Text, name: Text, path: seq<Text>, source: Text)

  function ContextOf(x: Named): Text {
    x.section + Chars(".") + x.name
  }

  function NamedKey(x: Named): Text {
    ContextOf(x) + Chars(".") + FiledKey(Filing(x.path, Some(x.source)))
  }

  predicate IsNamed(x: Named) {
    && IsSection(x.section) && IsSegment(x.name) && IsFiling(Filing(x.path, None))
    && x.source != [] && x.source[|x.source| - 1] > 0x20 && !IsAttributeKey(NamedKey(x))
  }

  /** A mark of an entry, `none` if it has no such field. */
  function MarkText(v: Json, name: string): Result<Text> {
    if v.Obj? && Chars(name) in v.fields then AsKey(v.fields[Chars(name)]) else Ok(Chars("none"))
  }

  lemma NamedPath(x: Named)
    requires IsNamed(x)
    ensures PathIn(NamedKey(x), ContextOf(x)) == Joined(x.path)
  {
    var rest := FiledKey(Filing(x.path, Some(x.source)));
    var head := ContextOf(x) + [DOT];
    PathOfKey(Filing(x.path, Some(x.source)));
    DotSpelled();
    hide Joined, FiledKey, IsNamed, ContextOf, Chars;
    assert head <= head + rest && (head + rest)[|head|..] == rest;
  }

  lemma DotSpelled()
    ensures Chars(".") == [DOT]
  {
  }

  lemma NamedContextOf(x: Named)
    requires IsNamed(x)
    ensures GetContext(NamedKey(x)) == ContextOf(x) && !(SOURCES <= NamedKey(x))
  {
    var rest := [DOT] + FiledKey(Filing(x.path, Some(x.source)));
    DotSpelled();
    KeyEnds(x);
    StartsNoSource(x);
    hide FiledKey, GetContext, Chars, IsAttributeKey, IsSection;
    Regrouped(ContextOf(x), [DOT], FiledKey(Filing(x.path, Some(x.source))));
    NamedContext(x.section, x.name, rest);
  }

  lemma KeyEnds(x: Named)
    requires IsNamed(x)
    ensures var t := NamedKey(x); t != [] && t[|t| - 1] > 0x20
  {
    hide Joined, Chars, IsSection, IsAttributeKey;
  }

  lemma StartsNoSource(x: Named)
    requires IsNamed(x)
    ensures !(SOURCES <= NamedKey(x))
  {
    DottedWords();
    WordsSpelled();
    hide Joined, Chars, IsAttributeKey, FiledKey;
    assert NamedKey(x)[0] == x.section[0] != SOURCES[0];
  }

  lemma NamedClass(x: Named, v: Json)
    requires IsNamed(x)
    ensures var time, source := MarkText(v, "timestamp"), MarkText(v, "$source");
            ClassOf(NamedKey(x), v) ==
              if time.Err? then Err(time.error)
              else if source.Err? then Err(source.error)
              else Ok(Some(Class(ContextOf(x), time.value, source.value, Joined(x.path))))
  {
    hide GetContext, PathIn, NamedKey, ContextOf, Chars, AsKey, Joined, IsAttributeKey;
    NamedPath(x);
    NamedContextOf(x);
    NoAttribute(x);
    WordsSpelled();
    hide IsNamed;
  }

  lemma NoAttribute(x: Named)
    requires IsNamed(x)
    ensures !EndsWith(NamedKey(x), ATTR)
  {
    hide NamedKey;
    FullWordsOf();
  }

  lemma FullWordsOf()
    ensures ATTR == Chars("_attr") && |ATTR| == 5
  {
    WordsSpelled();
  }

  /** An entry is in the list of its context, time, source and path, and in no other. */
  lemma EntriesAreFiled(keys: seq<Text>, m: Fields, x: Named, c: Class)
    requires Lists(keys, m) && Grouped(keys, m).Ok? && IsNamed(x) && NamedKey(x) in m
    ensures var v := m[NamedKey(x)];
            var time, source := MarkText(v, "timestamp"), MarkText(v, "$source");
            && time.Ok? && source.Ok?
            && ((NamedKey(x), v) in Bucket(Grouped(keys, m).value, c) <==>
                c == Class(ContextOf(x), time.value, source.value, Joined(x.path)))
  {
    var k := NamedKey(x);
    NamedClass(x, m[k]);
    hide ClassOf, NamedKey, IsNamed, ContextOf, Joined, MarkText, Chars, Bucket, Ascending;
    GroupedHasClass(keys, m, k);
    BucketMembers(keys, m, c, (k, m[k]));
  }

  /** Sources and attributes are in no list. */
  lemma LeftOut(keys: seq<Text>, m: Fields, k: Text, c: Class)
    requires Lists(keys, m) && Grouped(keys, m).Ok? && k in m && (Chars("sources") <= k || IsAttributeKey(k))
    ensures (k, m[k]) !in Bucket(Grouped(keys, m).value, c)
  {
    WordsSpelled();
    assert |ATTR| == 5;
    assert ClassOf(k, m[k]) == Ok(None);
    hide ClassOf, Bucket, Ascending, Chars;
    BucketMembers(keys, m, c, (k, m[k]));
  }

  lemma {:induction false} GroupedHasClass(keys: seq<Text>, m: Fields, k: Text)
    requires (forall q :: q in keys ==> q in m) && Grouped(keys, m).Ok? && k in keys
    ensures ClassOf(k, m[k]).Ok?
  {
    hide ClassOf, Filed;
    var n := |keys| - 1;
    if k != keys[n] {
      assert keys == keys[..n] + [keys[n]];
      GroupedHasClass(keys[..n], m, k);
    }
  }

  // ---------------------------------------------------------------- what is generated

  /** What is said of an entry in a message: its path, and the entry itself, or its value, or nothing if it has none. */
  lemma ItemSaid(x: Named, v: Json)
    requires IsNamed(x)
    ensures ItemOf(ContextOf(x), (NamedKey(x), v)) ==
            var path: Fields := map[Chars("path") := Str(Joined(x.path))];
            Obj(if !v.Obj? then path[Chars("value") := v]
                else if Chars("value") in v.fields then path[Chars("value") := v.fields[Chars("value")]]
                else path)
  {
    hide PathIn, NamedKey, ContextOf, Chars, Joined;
    NamedPath(x);
    WordsSpelled();
  }

  /** An update has its items, its time and its source; a message has its updates and its context, under their names. */
  lemma MessageSaid(u: Update, order: seq<Update>, context: Text, deltatype: Text)
    ensures UpdateOf(u) == Obj(map[Chars("values") := Arr(ItemsOf(u.context, EntriesIn(u.lists))), Chars("timestamp") := Str(u.time),
                                   Chars("$source") := Str(u.source)])
    ensures DeltaOf(order, Some(context), deltatype) == Obj(map[deltatype := Arr(Updates(order)), Chars("context") := Str(context)])
    ensures DeltaOf(order, None, deltatype) == Obj(map[])
  {
    WordsSpelled();
    hide Chars, ItemsOf, EntriesIn, Updates;
  }

  // ---------------------------------------------------------------- what generating leaves behind

  /** The entry without its time and its source. */
  function Unmarked(v: Json): Json {
    if v.Obj? then Obj(v.fields - {Chars("timestamp"), Chars("$source")}) else v
  }

  predicate IsAmong(es: seq<Entry>, k: Text) {
    exists i :: 0 <= i < |es| && es[i].0 == k
  }

  lemma {:induction false} StrippedAre(m: Fields, es: seq<Entry>)
    requires forall i :: 0 <= i < |es| ==> es[i].0 in m && m[es[i].0] == es[i].1
    ensures AllStripped(m, es).Keys == m.Keys
    ensures forall k :: k in m ==> AllStripped(m, es)[k] == if IsAmong(es, k) then Unmarked(m[k]) else m[k]
  {
    WordsSpelled();
    hide Chars;
    if es != [] {
      var n := |es| - 1;
      StrippedAre(m, es[..n]);
      assert forall i :: 0 <= i < n ==> es[..n][i] == es[i];
      assert forall k :: IsAmong(es, k) <==> IsAmong(es[..n], k) || es[n].0 == k;
    }
  }

  /** A walk through the nested maps comes to all entries that are listed. */
  lemma WalkedEntries(order: seq<Update>, last: Option<Text>, msgs: ByContext, e: Entry)
    requires IsOrder(order, last, msgs)
    ensures e in EntriesOf(order) <==> exists c :: e in Bucket(msgs, c)
  {
    hide EntriesOf, EntriesIn, GoesThrough, Bucket, IsOrder;
    EntriesInOrder(order, e);
    if i :| 0 <= i < |order| && e in EntriesIn(order[i].lists) {
      WalkedThrough(order, last, msgs, i);
      EntriesInLists(order[i].lists, e);
      var j :| 0 <= j < |order[i].lists| && e in order[i].lists[j].1;
      ListIsBucket(order[i], msgs, j);
    }
    if c :| e in Bucket(msgs, c) {
      var i, j := ListReached(order, last, msgs, c);
      EntriesInLists(order[i].lists, e);
    }
  }

  lemma WalkedThrough(order: seq<Update>, last: Option<Text>, msgs: ByContext, i: nat)
    requires IsOrder(order, last, msgs) && i < |order|
    ensures GoesThrough(order[i], msgs)
  {
    hide GoesThrough, Nested, TimePlaces, AllPlaces;
  }

  /** The map is left with all its keys; the entries that went into the delta have lost their times and their sources. */
  lemma MapLeftBehind(keys: seq<Text>, m: Fields, deltatype: Text, order: seq<Update>, last: Option<Text>, delta: Json, after: Fields)
    requires Lists(keys, m) && Grouped(keys, m).Ok?
    requires IsGenerated(Grouped(keys, m).value, deltatype, m, order, last, delta, after)
    ensures after.Keys == m.Keys
    ensures forall k :: k in m ==> after[k] == if Chars("sources") <= k || IsAttributeKey(k) then m[k] else Unmarked(m[k])
  {
    hide Bucket, ClassOf, Ascending, EntriesOf, AllStripped, Unmarked, IsOrder, DeltaOf, Grouped, Listed, Chars;
    var es, msgs := EntriesOf(order), Grouped(keys, m).value;
    forall e: Entry
      ensures e in es <==> e.0 in m && m[e.0] == e.1 && ClassOf(e.0, e.1).Ok? && ClassOf(e.0, e.1).value.Some?
    {
      WalkedEntries(order, last, msgs, e);
      forall c
        ensures e in Bucket(msgs, c) <==> e.0 in m && m[e.0] == e.1 && ClassOf(e.0, e.1) == Ok(Some(c))
      {
        BucketMembers(keys, m, c, e);
      }
      if ClassOf(e.0, e.1).Ok? && ClassOf(e.0, e.1).value.Some? {
        assert ClassOf(e.0, e.1) == Ok(Some(ClassOf(e.0, e.1).value.value));
      }
    }
    assert forall i :: 0 <= i < |es| ==> es[i] in es;
    StrippedAre(m, es);
    forall k | k in m
      ensures IsAmong(es, k) <==> !(Chars("sources") <= k || IsAttributeKey(k))
    {
      HasClass(keys, m, k);
      if ClassOf(k, m[k]).value.Some? {
        assert (k, m[k]) in es;
        var i :| 0 <= i < |es| && es[i] == (k, m[k]);
      }
    }
  }

  lemma HasClass(keys: seq<Text>, m: Fields, k: Text)
    requires Lists(keys, m) && Grouped(keys, m).Ok? && k in m
    ensures ClassOf(k, m[k]).Ok? && (ClassOf(k, m[k]).value.None? <==> Chars("sources") <= k || IsAttributeKey(k))
  {
    WordsSpelled();
    GroupedHasClass(keys, m, k);
    assert |ATTR| == 5;
    hide Ascending, GetContext, PathIn, Grouped;
  }
}
