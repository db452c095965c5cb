/** What merging lists is for: order, union, and doing nothing the second time. */
module ArrayMerging {
  import opened Units
  import opened JsonValues
  import opened ReaderSpec
  import opened Pointers
  import opened Schemas
  import opened ArrayMerges

  // ---------------------------------------------------------------- the order of values

  predicate Comparable(env: Env, a: Json, b: Json) {
    CompareValues(env, a, b).Ok?
  }

  predicate Below(env: Env, a: Json, b: Json) {
    Comparable(env, a, b) && CompareValues(env, a, b).value < 0
  }

  predicate Level(env: Env, a: Json, b: Json) {
    CompareValues(env, a, b) == Ok(0)
  }

  lemma {:induction false} TextFlips(s: Text, t: Text)
    ensures CompareText(t, s) == -CompareText(s, t)
  {
    if s != [] && t != [] && s[0] == t[0] {
      TextFlips(s[1..], t[1..]);
    }
  }

  lemma {:induction false} TextTransitive(s: Text, t: Text, u: Text)
    requires CompareText(s, t) <= 0 && CompareText(t, u) <= 0
    ensures CompareText(s, u) <= 0
    ensures CompareText(s, t) < 0 || CompareText(t, u) < 0 ==> CompareText(s, u) < 0
  {
    if s != [] && t != [] && u != [] && s[0] == t[0] == u[0] {
      TextTransitive(s[1..], t[1..], u[1..]);
    }
  }

  lemma Flips(env: Env, a: Json, b: Json)
    requires Comparable(env, a, b)
    ensures Comparable(env, b, a) && CompareValues(env, b, a).value == -CompareValues(env, a, b).value
  {
    if a.Str? && b.Str? {
      TextFlips(a.s, b.s);
    }
  }

  lemma Transitive(env: Env, a: Json, b: Json, c: Json)
    requires Comparable(env, a, b) && Comparable(env, b, c)
    requires CompareValues(env, a, b).value <= 0 && CompareValues(env, b, c).value <= 0
    ensures Comparable(env, a, c) && CompareValues(env, a, c).value <= 0
    ensures Below(env, a, b) || Below(env, b, c) ==> Below(env, a, c)
  {
    if a.Str? && b.Str? && c.Str? {
      TextTransitive(a.s, b.s, c.s);
    }
  }

  // ---------------------------------------------------------------- sorted lists

  predicate Increasing(env: Env, s: seq<Json>) {
    forall i, j :: 0 <= i < j < |s| ==> Below(env, s[i], s[j])
  }

  predicate NotAbove(env: Env, a: Json, b: Json) {
    Comparable(env, a, b) && CompareValues(env, a, b).value <= 0
  }

  /** Sorted, with repeats. */
  predicate NonDecreasing(env: Env, s: seq<Json>) {
    forall i, j :: 0 <= i < j < |s| ==> NotAbove(env, s[i], s[j])
  }

  predicate Within(env: Env, y: Json, l: seq<Json>) {
    exists x :: x in l && NotAbove(env, y, x)
  }

  /** No two neighbours of `a` repeat each other off the end of `l`. */
  predicate RepeatsMet(env: Env, l: seq<Json>, a: seq<Json>) {
    forall i, j :: 0 <= i && j == i + 1 < |a| && Level(env, a[i], a[j]) ==> Within(env, a[i], l)
  }

  predicate AllComparable(env: Env, l: seq<Json>, a: seq<Json>) {
    forall x, y :: x in l && y in a ==> Comparable(env, x, y)
  }

  /** Every element of `a` is found in `m`, up to the order. */
  predicate Covers(env: Env, m: seq<Json>, a: seq<Json>) {
    forall y :: y in a ==> exists x :: x in m && Level(env, x, y)
  }

  /** Both lists, and nothing else. */
  predicate IsUnion(env: Env, m: seq<Json>, l: seq<Json>, a: seq<Json>) {
    && (forall x :: x in l ==> x in m)
    && Covers(env, m, a)
    && forall x :: x in m ==> x in l || x in a
  }

  lemma Suffix(env: Env, s: seq<Json>)
    requires s != [] && Increasing(env, s)
    ensures Increasing(env, s[1..]) && forall x :: x in s[1..] ==> Below(env, s[0], x)
  {
    hide Below;
    forall i, j | 0 <= i < j < |s[1..]|
      ensures Below(env, s[1..][i], s[1..][j])
    {
      assert s[1..][i] == s[i + 1] && s[1..][j] == s[j + 1];
    }
    forall x | x in s[1..]
      ensures Below(env, s[0], x)
    {
      var k :| 0 <= k < |s[1..]| && s[1..][k] == x;
      assert x == s[k + 1];
    }
  }

  lemma PrefixedIncreasing(env: Env, x: Json, s: seq<Json>)
    requires Increasing(env, s) && forall y :: y in s ==> Below(env, x, y)
    ensures Increasing(env, [x] + s)
  {
    hide Below;
    var t := [x] + s;
    forall i, j | 0 <= i < j < |t|
      ensures Below(env, t[i], t[j])
    {
      assert t[j] == s[j - 1];
      assert i > 0 ==> t[i] == s[i - 1];
    }
  }

  /** What lies below the head of an increasing list lies below all of it. */
  lemma BelowAll(env: Env, x: Json, s: seq<Json>)
    requires s != [] && Increasing(env, s) && Comparable(env, x, s[0]) && CompareValues(env, x, s[0]).value <= 0
    ensures forall y :: y in s ==> Comparable(env, x, y) && CompareValues(env, x, y).value <= 0
    ensures forall y :: y in s[1..] ==> Below(env, x, y)
    ensures Below(env, x, s[0]) ==> forall y :: y in s ==> Below(env, x, y)
  {
    Suffix(env, s);
    forall y | y in s[1..]
      ensures Below(env, x, y)
    {
      Transitive(env, x, s[0], y);
    }
    assert forall y :: y in s ==> y == s[0] || y in s[1..];
  }

  lemma NonDecreasingSuffix(env: Env, s: seq<Json>)
    requires s != [] && NonDecreasing(env, s)
    ensures NonDecreasing(env, s[1..]) && forall x :: x in s[1..] ==> NotAbove(env, s[0], x)
  {
    hide NotAbove;
    forall i, j | 0 <= i < j < |s[1..]|
      ensures NotAbove(env, s[1..][i], s[1..][j])
    {
      assert s[1..][i] == s[i + 1] && s[1..][j] == s[j + 1];
    }
    forall x | x in s[1..]
      ensures NotAbove(env, s[0], x)
    {
      var k :| 0 <= k < |s[1..]| && s[1..][k] == x;
      assert x == s[k + 1];
    }
  }

  lemma BelowNonDecreasing(env: Env, x: Json, s: seq<Json>)
    requires s != [] && NonDecreasing(env, s) && Below(env, x, s[0])
    ensures forall y :: y in s ==> Below(env, x, y)
  {
    NonDecreasingSuffix(env, s);
    forall y | y in s
      ensures Below(env, x, y)
    {
      if y != s[0] {
        assert s == [s[0]] + s[1..];
        Transitive(env, x, s[0], y);
      }
    }
  }

  /**
    * Sorted into strictly increasing: the merge ends well and holds exactly the union. It is strictly increasing
    * again exactly when every repeat is met before the end of the target, where it is compared.
    */
  lemma {:induction false} RepeatsDecide(env: Env, l: seq<Json>, a: seq<Json>)
    requires Increasing(env, l) && NonDecreasing(env, a) && AllComparable(env, l, a)
    requires forall y :: y in a ==> Level(env, y, y)
    ensures var (m, end) := Merged(env, l, a, Null);
            end == Ok(()) && IsUnion(env, m, l, a) && (Increasing(env, m) <==> RepeatsMet(env, l, a))
    decreases 2 * |a| + |l|
  {
    hide CompareValues, RepeatsMet, Increasing, NonDecreasing, IsUnion;
    if a == [] {
      NothingRepeats(env, l);
    } else if l == [] {
      RepeatsKept(env, a);
    } else {
      NonDecreasingSuffix(env, a);
      Suffix(env, l);
      assert forall y :: y in a[1..] ==> y in a;
      assert l[0] in l && a[0] in a && Comparable(env, l[0], a[0]);
      var c := CompareValues(env, l[0], a[0]).value;
      if c < 0 {
        RepeatsDecide(env, l[1..], a);
        BelowNonDecreasing(env, l[0], a);
        KeepHead(env, l, a, Merged(env, l[1..], a, Null).0);
        MetBehindHead(env, l, a);
      } else if c > 0 {
        Flips(env, l[0], a[0]);
        BelowAll(env, a[0], l);
        PrefixedIncreasing(env, a[0], l);
        MetWithHead(env, l, a);
        RepeatsDecide(env, [a[0]] + l, a[1..]);
        TakeHead(env, l, a, Merged(env, [a[0]] + l, a[1..], Null).0);
      } else {
        Flips(env, l[0], a[0]);
        RepeatsDecide(env, l, a[1..]);
        DropHead(env, l, a, Merged(env, l, a[1..], Null).0);
        MetAtHead(env, l, a);
      }
    }
  }

  lemma NothingRepeats(env: Env, l: seq<Json>)
    ensures RepeatsMet(env, l, []) && IsUnion(env, l, l, [])
  {
  }

  lemma RepeatsKept(env: Env, a: seq<Json>)
    requires NonDecreasing(env, a)
    requires forall y :: y in a ==> Level(env, y, y)
    ensures Increasing(env, a) <==> RepeatsMet(env, [], a)
    ensures IsUnion(env, a, [], a)
  {
    hide CompareValues;
    if RepeatsMet(env, [], a) {
      forall i, j | 0 <= i < j < |a|
        ensures Below(env, a[i], a[j])
      {
        assert NotAbove(env, a[i], a[i + 1]) && !Level(env, a[i], a[i + 1]);
        if i + 1 < j {
          assert NotAbove(env, a[i + 1], a[j]);
          Transitive(env, a[i], a[i + 1], a[j]);
        }
      }
    } else {
      var i, j :| 0 <= i && j == i + 1 < |a| && Level(env, a[i], a[j]);
      assert !Below(env, a[i], a[j]);
    }
  }

  lemma MetBehindHead(env: Env, l: seq<Json>, a: seq<Json>)
    requires l != [] && forall y :: y in a ==> Below(env, l[0], y)
    ensures RepeatsMet(env, l, a) <==> RepeatsMet(env, l[1..], a)
  {
    assert l == [l[0]] + l[1..];
    forall i | 0 <= i < |a|
      ensures !NotAbove(env, a[i], l[0])
    {
      assert a[i] in a;
      Flips(env, l[0], a[i]);
    }
  }

  lemma MetAtHead(env: Env, l: seq<Json>, a: seq<Json>)
    requires l != [] && a != [] && NotAbove(env, a[0], l[0])
    ensures RepeatsMet(env, l, a) <==> RepeatsMet(env, l, a[1..])
  {
    hide Level, NotAbove;
    assert forall i :: 0 <= i < |a[1..]| ==> a[1..][i] == a[i + 1];
  }

  lemma MetWithHead(env: Env, l: seq<Json>, a: seq<Json>)
    requires l != [] && a != [] && NotAbove(env, a[0], l[0])
    ensures RepeatsMet(env, l, a) <==> RepeatsMet(env, [a[0]] + l, a[1..])
  {
    MetAtHead(env, l, a);
    forall i | 0 <= i < |a[1..]|
      ensures Within(env, a[1..][i], l) <==> Within(env, a[1..][i], [a[0]] + l)
    {
      var y := a[1..][i];
      if NotAbove(env, y, a[0]) {
        Transitive(env, y, a[0], l[0]);
        assert l[0] in l && NotAbove(env, y, l[0]) && Within(env, y, l);
      }
      HeadAdded(env, l, a[0], y);
    }
  }

  lemma HeadAdded(env: Env, l: seq<Json>, z: Json, y: Json)
    requires NotAbove(env, y, z) ==> Within(env, y, l)
    ensures Within(env, y, l) <==> Within(env, y, [z] + l)
  {
    hide NotAbove;
    if x :| x in l && NotAbove(env, y, x) {
      assert x in [z] + l;
    }
  }

  /** Sorted into sorted: the merge ends well, strictly increasing, and holds exactly the union. */
  lemma SortedMerge(env: Env, l: seq<Json>, a: seq<Json>)
    requires Increasing(env, l) && Increasing(env, a) && AllComparable(env, l, a)
    requires forall y :: y in a ==> Level(env, y, y)
    ensures var (m, end) := Merged(env, l, a, Null);
            end == Ok(()) && Increasing(env, m) && IsUnion(env, m, l, a)
  {
    forall i, j | 0 <= i < j < |a|
      ensures NotAbove(env, a[i], a[j]) && !Level(env, a[i], a[j])
    {
      assert Below(env, a[i], a[j]);
    }
    RepeatsDecide(env, l, a);
  }

  lemma KeepHead(env: Env, l: seq<Json>, a: seq<Json>, m: seq<Json>)
    requires l != [] && IsUnion(env, m, l[1..], a)
    requires forall x :: x in l[1..] ==> Below(env, l[0], x)
    requires forall y :: y in a ==> Below(env, l[0], y)
    ensures IsUnion(env, [l[0]] + m, l, a) && (Increasing(env, [l[0]] + m) <==> Increasing(env, m))
  {
    hide Below, Level;
    assert l == [l[0]] + l[1..];
    if Increasing(env, m) {
      PrefixedIncreasing(env, l[0], m);
    }
    if Increasing(env, [l[0]] + m) {
      Suffix(env, [l[0]] + m);
      assert ([l[0]] + m)[1..] == m;
    }
  }

  lemma TakeHead(env: Env, l: seq<Json>, a: seq<Json>, m: seq<Json>)
    requires a != [] && IsUnion(env, m, [a[0]] + l, a[1..]) && Level(env, a[0], a[0])
    ensures IsUnion(env, m, l, a)
  {
    hide Level;
    assert a == [a[0]] + a[1..];
    assert a[0] in [a[0]] + l;
  }

  lemma DropHead(env: Env, l: seq<Json>, a: seq<Json>, m: seq<Json>)
    requires a != [] && l != [] && IsUnion(env, m, l, a[1..]) && Level(env, l[0], a[0])
    ensures IsUnion(env, m, l, a)
  {
    hide Level;
    assert a == [a[0]] + a[1..];
    assert l[0] in m;
  }

  // ---------------------------------------------------------------- merging the same list twice

  /** A sorted list that covers another sorted one is left as it is, whatever repeats there are. */
  lemma {:induction false} Absorbs(env: Env, m: seq<Json>, a: seq<Json>)
    requires NonDecreasing(env, m) && NonDecreasing(env, a) && Covers(env, m, a)
    ensures Merged(env, m, a, Null) == (m, Ok(()))
    decreases |a| + |m|
  {
    hide CompareValues;
    if a != [] {
      NonDecreasingSuffix(env, a);
      assert a[0] in a;
      var x :| x in m && Level(env, x, a[0]);
      NonDecreasingSuffix(env, m);
      if Level(env, m[0], a[0]) {
        assert forall y :: y in a[1..] ==> y in a;
        Absorbs(env, m, a[1..]);
      } else {
        assert m == [m[0]] + m[1..];
        assert x in m[1..];
        Transitive(env, m[0], x, a[0]);
        LaterCovered(env, m, a);
        Absorbs(env, m[1..], a);
      }
    }
  }

  lemma LaterCovered(env: Env, m: seq<Json>, a: seq<Json>)
    requires m != [] && a != [] && Covers(env, m, a) && NonDecreasing(env, a) && Below(env, m[0], a[0])
    ensures Covers(env, m[1..], a)
  {
    hide CompareValues;
    BelowNonDecreasing(env, m[0], a);
    forall y | y in a
      ensures exists x :: x in m[1..] && Level(env, x, y)
    {
      var x :| x in m && Level(env, x, y);
      assert x != m[0];
      assert m == [m[0]] + m[1..];
    }
  }

  lemma CoversItself(env: Env, a: seq<Json>)
    requires AllComparable(env, a, a)
    ensures Covers(env, a, a)
  {
    forall y | y in a
      ensures exists x :: x in a && Level(env, x, y)
    {
      LevelWithItself(env, y);
    }
  }

  /** Where everything can be compared the merge ends well, is no shorter than the target, and adds from the argument. */
  lemma {:induction false} MergeEnds(env: Env, l: seq<Json>, a: seq<Json>)
    requires AllComparable(env, l, a) && AllComparable(env, a, a)
    ensures var (m, end) := Merged(env, l, a, Null);
            end == Ok(()) && |m| >= |l| && forall x :: x in m ==> x in l || x in a
    decreases 2 * |a| + |l|
  {
    hide CompareValues, Comparable;
    if a != [] && l != [] {
      assert l[0] in l && a[0] in a && Comparable(env, l[0], a[0]);
      assert l == [l[0]] + l[1..] && a == [a[0]] + a[1..];
      CompareIs(env, l[0], a[0]);
      MergeEnds(env, l[1..], a);
      MergeEnds(env, [a[0]] + l, a[1..]);
      MergeEnds(env, l, a[1..]);
    }
  }

  lemma CompareIs(env: Env, x: Json, y: Json)
    requires Comparable(env, x, y)
    ensures CompareJson(env, x, y, Null) == Ok(CompareValues(env, x, y).value)
  {
  }

  /** A head that is above nothing in the argument stays the head. */
  lemma {:induction false} HeadStays(env: Env, l: seq<Json>, a: seq<Json>)
    requires l != [] && forall y :: y in a ==> NotAbove(env, l[0], y)
    ensures Merged(env, l, a, Null).0 != [] && Merged(env, l, a, Null).0[0] == l[0]
    decreases |a|
  {
    hide CompareValues;
    if a != [] {
      assert a[0] in a && forall y :: y in a[1..] ==> y in a;
      HeadStays(env, l, a[1..]);
    }
  }

  /** The second merge of a sorted list finds everything it looks for. */
  lemma {:induction false} SortedIsFound(env: Env, l: seq<Json>, a: seq<Json>)
    requires AllComparable(env, l, a) && AllComparable(env, a, a) && NonDecreasing(env, a)
    ensures Merged(env, Merged(env, l, a, Null).0, a, Null) == (Merged(env, l, a, Null).0, Ok(()))
    decreases 2 * |a| + |l|
  {
    hide CompareValues;
    if a == [] {
    } else if l == [] {
      CoversItself(env, a);
      Absorbs(env, a, a);
    } else {
      assert l[0] in l && a[0] in a && Comparable(env, l[0], a[0]);
      assert l == [l[0]] + l[1..] && a == [a[0]] + a[1..];
      NonDecreasingSuffix(env, a);
      var c := CompareValues(env, l[0], a[0]).value;
      if c < 0 {
        SortedIsFound(env, l[1..], a);
        var m := Merged(env, l[1..], a, Null).0;
        assert ([l[0]] + m)[1..] == m;
      } else if c > 0 {
        LevelWithItself(env, a[0]);
        SortedIsFound(env, [a[0]] + l, a[1..]);
        HeadStays(env, [a[0]] + l, a[1..]);
      } else {
        forall y | y in a[1..]
          ensures NotAbove(env, l[0], y)
        {
          Transitive(env, l[0], a[0], y);
        }
        SortedIsFound(env, l, a[1..]);
        HeadStays(env, l, a[1..]);
      }
    }
  }

  /** A merge that adds nothing has met the elements of the argument in their order. */
  lemma {:induction false} FoundIsSorted(env: Env, m: seq<Json>, a: seq<Json>)
    requires AllComparable(env, m, a) && AllComparable(env, a, a) && |Merged(env, m, a, Null).0| == |m|
    ensures NonDecreasing(env, a)
    ensures a != [] && m != [] ==> NotAbove(env, m[0], a[0])
    decreases |a| + |m|
  {
    hide CompareValues;
    if a != [] && m != [] {
      assert m[0] in m && a[0] in a && Comparable(env, m[0], a[0]);
      assert m == [m[0]] + m[1..] && a == [a[0]] + a[1..];
      var c := CompareValues(env, m[0], a[0]).value;
      if c < 0 {
        FoundIsSorted(env, m[1..], a);
      } else if c > 0 {
        MergeEnds(env, [a[0]] + m, a[1..]);
      } else {
        FoundIsSorted(env, m, a[1..]);
        Flips(env, m[0], a[0]);
        if a[1..] != [] {
          Transitive(env, a[0], m[0], a[1]);
        }
        NonDecreasingPrefixed(env, a);
      }
    }
  }

  lemma NonDecreasingPrefixed(env: Env, a: seq<Json>)
    requires a != [] && NonDecreasing(env, a[1..]) && (|a| > 1 ==> NotAbove(env, a[0], a[1]))
    ensures NonDecreasing(env, a)
  {
    hide CompareValues;
    forall i, j | 0 <= i < j < |a|
      ensures NotAbove(env, a[i], a[j])
    {
      if i > 0 {
        assert a[i] == a[1..][i - 1] && a[j] == a[1..][j - 1];
      } else if j > 1 {
        assert a[1] == a[1..][0] && a[j] == a[1..][j - 1];
        Transitive(env, a[0], a[1], a[j]);
      }
    }
  }

  /** Merging the same list twice is merging it once, whatever the target, exactly when the list is sorted. */
  lemma SortedTwice(env: Env, l: seq<Json>, a: seq<Json>)
    requires AllComparable(env, l, a) && AllComparable(env, a, a)
    ensures var (m, end) := Merged(env, l, a, Null);
            end == Ok(()) && (Merged(env, m, a, Null) == (m, Ok(())) <==> NonDecreasing(env, a))
  {
    hide Comparable, NonDecreasing;
    MergeEnds(env, l, a);
    var m := Merged(env, l, a, Null).0;
    if NonDecreasing(env, a) {
      SortedIsFound(env, l, a);
    }
    if Merged(env, m, a, Null) == (m, Ok(())) {
      assert AllComparable(env, m, a);
      FoundIsSorted(env, m, a);
    }
  }

  /** An unsorted list grows the target again and again. */
  lemma UnsortedGrows(env: Env)
    ensures Merged(env, [], [Int(2), Int(1)], Null) == ([Int(2), Int(1)], Ok(()))
    ensures Merged(env, [Int(2), Int(1)], [Int(2), Int(1)], Null) == ([Int(1), Int(2), Int(1)], Ok(()))
    ensures !NonDecreasing(env, [Int(2), Int(1)])
  {
    var s := [Int(2), Int(1)];
    assert s[1..] == [Int(1)] && [Int(1)][1..] == [] && [Int(1)] + s == [Int(1), Int(2), Int(1)];
    assert Merged(env, s, [Int(1)], Null) == Merged(env, [Int(1)] + s, [], Null);
    assert !NotAbove(env, s[0], s[1]);
  }

  /** Off the end of the target nothing is compared: repeats get in. */
  lemma RepeatsAtTheEnd(env: Env)
    ensures Merged(env, [], [Int(1), Int(1)], Null) == ([Int(1), Int(1)], Ok(()))
    ensures Merged(env, [Int(1)], [Int(1), Int(1)], Null) == ([Int(1)], Ok(()))
    ensures !Increasing(env, [Int(1), Int(1)])
  {
    assert [Int(1), Int(1)][1..] == [Int(1)] && [Int(1)][1..] == [];
    var s := [Int(1), Int(1)];
    assert !Below(env, s[0], s[1]);
  }

  // ---------------------------------------------------------------- lists without repeats

  predicate Equal(env: Env, x: Json, y: Json, compareBy: Json) {
    EqualJson(env, x, y, compareBy) == Ok(true)
  }

  /** No comparison of an element of `l` with one of `a` ends in an exception. */
  predicate AllJudged(env: Env, l: seq<Json>, a: seq<Json>, compareBy: Json) {
    forall x, y :: x in l && y in a ==> EqualJson(env, x, y, compareBy).Ok?
  }

  predicate Contained(env: Env, m: seq<Json>, y: Json, compareBy: Json) {
    exists x :: x in m && Equal(env, x, y, compareBy)
  }

  lemma {:induction false} PresentIff(env: Env, l: seq<Json>, y: Json, compareBy: Json)
    requires forall x :: x in l ==> EqualJson(env, x, y, compareBy).Ok?
    ensures Present(env, l, y, compareBy) == Ok(Contained(env, l, y, compareBy))
  {
    hide EqualJson;
    if l != [] {
      PresentIff(env, l[1..], y, compareBy);
      assert l == [l[0]] + l[1..];
      if Equal(env, l[0], y, compareBy) {
        assert Contained(env, l, y, compareBy);
      }
    }
  }

  /** The target stays in front; what is added comes from the argument; all of the argument is contained. */
  lemma {:induction false} AddedMeans(env: Env, l: seq<Json>, a: seq<Json>, compareBy: Json)
    requires AllJudged(env, l, a, compareBy) && AllJudged(env, a, a, compareBy)
    requires forall y :: y in a ==> Equal(env, y, y, compareBy)
    ensures var (m, end) := WithAdded(env, l, a, compareBy);
            && end == Ok(()) && l <= m
            && (forall x :: x in m ==> x in l || x in a)
            && forall y :: y in a ==> Contained(env, m, y, compareBy)
    decreases |a|
  {
    hide EqualJson;
    if a != [] {
      PresentIff(env, l, a[0], compareBy);
      var next := if Contained(env, l, a[0], compareBy) then l else l + [a[0]];
      AddedMeans(env, next, a[1..], compareBy);
      assert a == [a[0]] + a[1..];
      var m := WithAdded(env, l, a, compareBy).0;
      assert Contained(env, next, a[0], compareBy) by {
        if !Contained(env, l, a[0], compareBy) {
          assert a[0] in next;
        }
      }
      var x :| x in next && Equal(env, x, a[0], compareBy);
      assert x in m;
    }
  }

  /** The added elements differ from the target and from each other. */
  lemma {:induction false} NoRepeatsAdded(env: Env, l: seq<Json>, a: seq<Json>, compareBy: Json, i: nat, j: nat)
    requires AllJudged(env, l, a, compareBy) && AllJudged(env, a, a, compareBy)
    requires i < j < |WithAdded(env, l, a, compareBy).0| && |l| <= j
    ensures !Equal(env, WithAdded(env, l, a, compareBy).0[i], WithAdded(env, l, a, compareBy).0[j], compareBy)
    decreases |a|
  {
    hide EqualJson;
    if a != [] {
      PresentIff(env, l, a[0], compareBy);
      assert a == [a[0]] + a[1..];
      if Contained(env, l, a[0], compareBy) {
        NoRepeatsAdded(env, l, a[1..], compareBy, i, j);
      } else {
        var next := l + [a[0]];
        AddedExtends(env, next, a[1..], compareBy);
        if j == |l| {
          assert next[i] == l[i] && next[j] == a[0];
        } else {
          NoRepeatsAdded(env, next, a[1..], compareBy, i, j);
        }
      }
    }
  }

  lemma {:induction false} AddedExtends(env: Env, l: seq<Json>, a: seq<Json>, compareBy: Json)
    ensures l <= WithAdded(env, l, a, compareBy).0
    decreases |a|
  {
    hide EqualJson, Present;
    if a != [] {
      AddedExtends(env, l, a[1..], compareBy);
      AddedExtends(env, l + [a[0]], a[1..], compareBy);
    }
  }

  lemma {:induction false} AddsNothing(env: Env, m: seq<Json>, a: seq<Json>, compareBy: Json)
    requires AllJudged(env, m, a, compareBy) && forall y :: y in a ==> Contained(env, m, y, compareBy)
    ensures WithAdded(env, m, a, compareBy) == (m, Ok(()))
    decreases |a|
  {
    hide EqualJson;
    if a != [] {
      assert a == [a[0]] + a[1..];
      PresentIff(env, m, a[0], compareBy);
      AddsNothing(env, m, a[1..], compareBy);
    }
  }

  lemma AddedTwice(env: Env, l: seq<Json>, a: seq<Json>, compareBy: Json)
    requires AllJudged(env, l, a, compareBy) && AllJudged(env, a, a, compareBy)
    requires forall y :: y in a ==> Equal(env, y, y, compareBy)
    ensures WithAdded(env, WithAdded(env, l, a, compareBy).0, a, compareBy) == (WithAdded(env, l, a, compareBy).0, Ok(()))
  {
    AddedMeans(env, l, a, compareBy);
    AddsNothing(env, WithAdded(env, l, a, compareBy).0, a, compareBy);
  }

  // ---------------------------------------------------------------- equality

  lemma {:induction false} SameAsItself(env: Env, d: Json)
    ensures Same(env, d, d)
  {
    match d
    case Arr(items) =>
      forall i | 0 <= i < |items| {
        SameAsItself(env, items[i]);
      }
    case Obj(fields) =>
      forall k | k in fields
        ensures Same(env, fields[k], fields[k])
      {
        SameAsItself(env, fields[k]);
      }
    case _ =>
  }

  lemma {:induction false} FieldsEqual(env: Env, d: Json, fields: seq<Json>)
    requires EqualFields(env, d, d, fields).Ok?
    ensures EqualFields(env, d, d, fields) == Ok(true)
  {
    if fields != [] {
      var field := AsKey(fields[0]).value;
      FieldEqual(env, d, field);
      FieldsEqual(env, d, fields[1..]);
    }
  }

  lemma FieldEqual(env: Env, d: Json, field: Text)
    requires EqualField(env, d, d, field).Ok?
    ensures EqualField(env, d, d, field) == Ok(true)
  {
    var v := Resolve(field, d);
    if v.Ok? && v.value.Some? {
      SameAsItself(env, v.value.value);
    }
  }

  /** A value equals itself, by whatever fields: unless the comparison throws. */
  lemma EqualToItself(env: Env, d: Json, compareBy: Json)
    requires EqualJson(env, d, d, compareBy).Ok?
    ensures Equal(env, d, d, compareBy)
  {
    match compareBy
    case Null => SameAsItself(env, d);
    case Str(field) => FieldEqual(env, d, field);
    case Arr(fields) => FieldsEqual(env, d, fields);
  }

  lemma LevelWithItself(env: Env, d: Json)
    requires Comparable(env, d, d)
    ensures Level(env, d, d)
  {
    Flips(env, d, d);
  }

  // ---------------------------------------------------------------- what the comparisons are

  /** The order of texts: a beginning comes first, and otherwise the first unit that differs decides. */
  ghost predicate TextBefore(s: Text, t: Text) {
    s < t || exists i :: 0 <= i < |s| && i < |t| && s[..i] == t[..i] && s[i] < t[i]
  }

  lemma {:induction false} TextOrder(s: Text, t: Text)
    ensures CompareText(s, t) < 0 <==> TextBefore(s, t)
    ensures CompareText(s, t) in {-1, 0, 1} && (CompareText(s, t) == 0 <==> s == t)
  {
    if s != [] && t != [] {
      if s[0] == t[0] {
        TextOrder(s[1..], t[1..]);
        assert s == [s[0]] + s[1..] && t == [t[0]] + t[1..];
        if i :| 0 <= i < |s| && i < |t| && s[..i] == t[..i] && s[i] < t[i] {
          assert i > 0 && s[1..][..i - 1] == s[..i][1..] && t[1..][..i - 1] == t[..i][1..];
          assert s[1..][i - 1] == s[i] && t[1..][i - 1] == t[i];
        }
        if i :| 0 <= i < |s[1..]| && i < |t[1..]| && s[1..][..i] == t[1..][..i] && s[1..][i] < t[1..][i] {
          assert s[..i + 1] == [s[0]] + s[1..][..i] && t[..i + 1] == [t[0]] + t[1..][..i];
        }
      } else {
        DifferAtFirst(s, t);
      }
    }
  }

  lemma DifferAtFirst(s: Text, t: Text)
    requires s != [] && t != [] && s[0] != t[0]
    ensures TextBefore(s, t) <==> s[0] < t[0]
  {
    assert s[..0] == t[..0];
    forall i | 0 < i < |s| && i < |t|
      ensures s[..i] != t[..i]
    {
      assert s[..i][0] == s[0] && t[..i][0] == t[0];
    }
  }

  /** One value before another: texts by their order, numbers of one class by what they are worth, false before true. */
  ghost predicate ComesBefore(env: Env, a: Json, b: Json) {
    match (a, b)
    case (Str(s), Str(t)) => TextBefore(s, t)
    case (Bool(x), Bool(y)) => !x && y
    case (Int(m), Int(n)) => m < n
    case (Dec(x), Dec(y)) => env.decimal(x) < env.decimal(y)
    case _ => false
  }

  /** Of one Java class; a `long` and a greater integer are not. */
  predicate OfOneClass(a: Json, b: Json) {
    match (a, b)
    case (Str(_), Str(_)) => true
    case (Bool(_), Bool(_)) => true
    case (Int(m), Int(n)) => (-0x8000_0000_0000_0000 <= m <= 0x7FFF_FFFF_FFFF_FFFF) == (-0x8000_0000_0000_0000 <= n <= 0x7FFF_FFFF_FFFF_FFFF)
    case (Dec(_), Dec(_)) => true
    case _ => false
  }

  /** Values of one class are compared by their order; all others end in an exception. */
  lemma ComparedByOrder(env: Env, a: Json, b: Json)
    ensures Comparable(env, a, b) <==> OfOneClass(a, b)
    ensures Below(env, a, b) <==> OfOneClass(a, b) && ComesBefore(env, a, b)
    ensures Level(env, a, b) <==> OfOneClass(a, b) && !ComesBefore(env, a, b) && !ComesBefore(env, b, a)
    ensures !OfOneClass(a, b) ==>
      CompareValues(env, a, b) == Err(if a.Null? || (b.Null? && !a.Arr? && !a.Obj?) then NullPointer else ClassCast)
  {
    if a.Str? && b.Str? {
      TextOrder(a.s, b.s);
      TextOrder(b.s, a.s);
      TextFlips(a.s, b.s);
    }
    hide CompareText, TextBefore;
  }

  /** How a sort by a field ends, if both sides have an element: a field is a `Json`, which cannot be compared. */
  function SortByFieldEnds(l: Json, a: Json, field: Text): Error {
    if Resolve(field, l).Err? then Resolve(field, l).error
    else if Resolve(field, a).Err? then Resolve(field, a).error
    else if Resolve(field, l).value.None? then NullPointer
    else ClassCast
  }

  /** A sort by one field, or by several, goes through exactly if there is nothing to compare. */
  lemma SortByFieldFails(env: Env, l: seq<Json>, a: seq<Json>, field: Text, more: seq<Json>)
    ensures Merged(env, l, a, Str(field)).1.Ok? <==> l == [] || a == []
    ensures l != [] && a != [] ==> Merged(env, l, a, Str(field)) == (l, Err(SortByFieldEnds(l[0], a[0], field)))
    ensures Merged(env, l, a, Arr([Str(field)] + more)) == Merged(env, l, a, Str(field))
  {
    hide Resolve;
    assert ([Str(field)] + more)[0] == Str(field);
  }

  /** Equal by some fields: each is missing on both sides, or has the same value on both. */
  ghost predicate AgreeAt(env: Env, x: Json, y: Json, field: Text) {
    Resolve(field, x).Ok? && Resolve(field, y).Ok?
    && match (Resolve(field, x).value, Resolve(field, y).value)
       case (None, None) => true
       case (Some(v), Some(w)) => Same(env, v, w)
       case _ => false
  }

  ghost predicate AgreeBy(env: Env, x: Json, y: Json, field: Json) {
    AsKey(field).Ok? && AgreeAt(env, x, y, AsKey(field).value)
  }

  lemma {:induction false} EqualByFields(env: Env, x: Json, y: Json, fields: seq<Json>)
    ensures Equal(env, x, y, Arr(fields)) <==> forall i :: 0 <= i < |fields| ==> AgreeBy(env, x, y, fields[i])
    ensures Equal(env, x, y, Null) <==> Same(env, x, y)
  {
    hide Resolve, Same, AsKey;
    if fields != [] {
      FirstField(env, x, y, fields);
      EqualByFields(env, x, y, fields[1..]);
      hide AgreeBy, Equal;
      assert fields == [fields[0]] + fields[1..];
    }
  }

  lemma FirstField(env: Env, x: Json, y: Json, fields: seq<Json>)
    requires fields != []
    ensures Equal(env, x, y, Arr(fields)) <==> AgreeBy(env, x, y, fields[0]) && Equal(env, x, y, Arr(fields[1..]))
  {
    hide Resolve, Same, AsKey;
  }

  lemma EqualByField(env: Env, x: Json, y: Json, field: Text)
    ensures Equal(env, x, y, Str(field)) <==> AgreeAt(env, x, y, field)
  {
    hide Resolve, Same;
  }
}
