/** Where minifying keeps the meaning of a text and where it does not: numbers that only a gap keeps apart. */
module MinifyNumbers {
  import opened Units
  import opened JsonValues
  import opened Numbers
  import opened ReaderSpec
  import opened Minifier
  import opened Layout
  import opened MinifyLayout
  import opened Comments
  import opened ReadLayout
  import opened MinifyLimits

  const NEWLINE_PIECE := White(NEWLINE)

  /** Two numbers with a space between them. */
  function TwoNumbers(n: NumberText, o: NumberText): seq<Piece> {
    [Lex(Number(n)), White(SPACE), Lex(Number(o))]
  }

  /** The text with the two numbers between any two layouts, and its minified form. */
  predicate AlikeWithNumbers(ps: seq<Piece>, n: NumberText, o: NumberText, qs: seq<Piece>) {
    ArePieces(ps) && AllClear(ps) && ArePieces(qs) && AllClear(qs)
    && NumbersApart(Lexemes(ps) + [Number(n)]) && NumbersApart([Number(o)] + Lexemes(qs))
    ==> MinifiesAlike(ps + TwoNumbers(n, o) + qs)
  }

  /** What a number and one without sign at once behind it are scanned as. */
  function Fused(n: NumberText, o: NumberText): NumberText {
    if n.exponent != [] then n.(exponent := n.exponent + o.whole)
    else if n.fraction == [] then NumberText(n.sign, n.whole + o.whole, o.fraction, o.exponent)
    else if o.fraction == [] then n.(fraction := n.fraction + o.whole, exponent := o.exponent)
    else n.(fraction := n.fraction + o.whole)
  }

  /** What is left of the second one: a number has one fraction, and none behind an exponent. */
  function LeftOver(n: NumberText, o: NumberText): Text {
    if n.exponent == [] && (n.fraction == [] || o.fraction == []) then [] else o.fraction + o.exponent
  }

  lemma FusedText(n: NumberText, o: NumberText)
    requires o.sign == []
    ensures Fused(n, o).ToText() + LeftOver(n, o) == n.ToText() + o.ToText()
  {
    var behind := o.fraction + o.exponent;
    assert o.ToText() == o.whole + behind;
    PartsRegrouped(n.sign, n.whole, n.fraction, n.exponent, o.ToText());
    if n.exponent != [] {
      PartsRegrouped(n.sign, n.whole, n.fraction, n.exponent + o.whole, behind);
      Regrouped(n.exponent, o.whole, behind);
    } else if n.fraction == [] {
      Regrouped(n.whole, o.whole, behind);
      assert n.fraction + (n.exponent + o.ToText()) == o.whole + behind;
      assert Fused(n, o).ToText() + [] == Fused(n, o).ToText();
    } else {
      assert n.exponent + o.ToText() == o.whole + behind;
      Regrouped(n.fraction, o.whole, behind);
      var f := Fused(n, o);
      PartsRegrouped(f.sign, f.whole, f.fraction, f.exponent, LeftOver(n, o));
      assert f.exponent + LeftOver(n, o) == behind;
    }
  }

  lemma FusedShape(n: NumberText, o: NumberText)
    requires n.WellShaped() && o.WellShaped() && o.sign == []
    ensures Fused(n, o).WellShaped() && StopsAt(Fused(n, o), LeftOver(n, o))
    ensures |LeftOver(n, o)| < |o.ToText()| && (LeftOver(n, o) != [] ==> Fused(n, o).IsFloatingPoint())
  {
    if n.exponent != [] {
      var e := n.exponent + o.whole;
      assert MarkLength(e) == MarkLength(n.exponent);
      assert e[MarkLength(e)..] == n.exponent[MarkLength(e)..] + o.whole;
    } else if n.fraction != [] {
      assert (n.fraction + o.whole)[1..] == n.fraction[1..] + o.whole;
    }
  }

  lemma FusedIsScanned(n: NumberText, o: NumberText, rest: Text)
    requires n.WellShaped() && o.WellShaped() && o.sign == [] && EndsNumber(rest)
    ensures ScanNumber(n.ToText() + (o.ToText() + rest)) == (Fused(n, o), LeftOver(n, o) + rest)
  {
    FusedText(n, o);
    FusedShape(n, o);
    Regrouped(n.ToText(), o.ToText(), rest);
    Regrouped(Fused(n, o).ToText(), LeftOver(n, o), rest);
    hide Fused, LeftOver;
    assert LeftOver(n, o) == [] ==> LeftOver(n, o) + rest == rest;
    ScanStops(Fused(n, o), LeftOver(n, o) + rest);
  }

  /** A number followed at once by one without sign is not read as what it is, unless both are zero. */
  lemma FusedIsOther(n: NumberText, o: NumberText)
    requires n.WellShaped() && o.WellShaped() && o.sign == [] && NumberOf(n).Ok?
    ensures NumberOf(Fused(n, o)) != NumberOf(n) || AreZeros(n, o)
  {
    var f := Fused(n, o);
    FusedText(n, o);
    FusedShape(n, o);
    if !n.IsFloatingPoint() && !f.IsFloatingPoint() {
      IntegersDiffer(n, o);
    } else {
      assert |f.ToText()| > |n.ToText()|;
    }
  }

  predicate AreZeros(n: NumberText, o: NumberText) {
    && !n.IsFloatingPoint() && !o.IsFloatingPoint()
    && n.whole != [] && o.whole != [] && DigitsValue(n.whole) == 0 && DigitsValue(o.whole) == 0
  }

  lemma {:induction false} ValueOfBoth(a: Text, b: Text)
    requires AllDigits(a) && AllDigits(b) && b != []
    ensures DigitsValue(a) >= 0 && DigitsValue(b) >= 0
    ensures DigitsValue(a + b) >= 10 * DigitsValue(a) + DigitsValue(b)
    ensures DigitsValue(a) == 0 ==> DigitsValue(a + b) == DigitsValue(b)
  {
    ValueNotNegative(a);
    var k := |b| - 1;
    assert (a + b)[|a + b| - 1] == b[k] && (a + b)[..|a + b| - 1] == a + b[..k];
    if k == 0 {
      assert a + b[..k] == a;
    } else {
      ValueOfBoth(a, b[..k]);
    }
  }

  lemma {:induction false} ValueNotNegative(a: Text)
    requires AllDigits(a)
    ensures DigitsValue(a) >= 0
  {
    if a != [] {
      ValueNotNegative(a[..|a| - 1]);
      assert IsDigit(a[|a| - 1]);
    }
  }

  lemma IntegersDiffer(n: NumberText, o: NumberText)
    requires n.WellShaped() && !n.IsFloatingPoint() && o.WellShaped() && !o.IsFloatingPoint() && o.sign == []
    requires NumberOf(n).Ok?
    ensures NumberOf(Fused(n, o)) != NumberOf(n) || AreZeros(n, o)
  {
    hide DigitsValue;
    ValueOfBoth(n.whole, o.whole);
  }

  /** At the top of a text the first number is read, and what was minified begins with the fused one. */
  lemma TopLayout(n: NumberText, o: NumberText)
    requires n.WellShaped() && o.WellShaped()
    ensures var ps := [] + TwoNumbers(n, o) + [NEWLINE_PIECE];
            && ArePieces(ps) && TextOf(ps) == n.ToText() + ([SPACE] + (o.ToText() + [NEWLINE]))
            && Minified(TextOf(ps)) == n.ToText() + (o.ToText() + [])
  {
    var a, b, c, d := Lex(Number(n)), White(SPACE), Lex(Number(o)), NEWLINE_PIECE;
    var ps := [a, b, c, d];
    assert [] + TwoNumbers(n, o) + [NEWLINE_PIECE] == ps;
    FourPieces(a, b, c, d);
    MinifiedPieces(ps);
    QuietNumbers(a, b, c);
    CompactQuiet([], [a, b, c], [d]);
    assert [a, b, c] + [d] == ps && [] + [a, b, c] == [a, b, c] && [d][1..] == [];
    KeepNumbers(a, b, c);
    assert Compact([a, b, c], [d]) == [a, c] + Compact([], []);
    TextOfAppend([a], [c]);
    OnePiece(a);
    OnePiece(c);
    assert [a] + [c] == [a, c] && o.ToText() + [] == o.ToText();
  }

  lemma QuietNumbers(a: Piece, b: Piece, c: Piece)
    requires a.Lex? && a.lexeme.Number? && b == White(SPACE) && c.Lex? && c.lexeme.Number?
    ensures AreQuiet([a, b, c])
  {
  }

  lemma KeepNumbers(a: Piece, b: Piece, c: Piece)
    requires a.Lex? && b == White(SPACE) && c.Lex?
    ensures Keep([a, b, c]) == [a, c]
  {
    assert [a, b, c][1..] == [b, c] && [b, c][1..] == [c] && [c][1..] == [];
    assert Keep([c]) == [c] && Keep([b, c]) == [] + [c];
  }

  lemma FourPieces(a: Piece, b: Piece, c: Piece, d: Piece)
    ensures TextOf([a, b, c, d]) == PieceText(a) + (PieceText(b) + (PieceText(c) + PieceText(d)))
    ensures ArePieces([a, b, c, d]) <==> IsPiece(a) && IsPiece(b) && IsPiece(c) && IsPiece(d)
  {
    hide PieceText, IsPiece;
    assert [a, b, c, d][1..] == [b, c, d] && [b, c, d][1..] == [c, d] && [c, d][1..] == [d];
    OnePiece(d);
    assert TextOf([c, d]) == PieceText(c) + PieceText(d);
    assert TextOf([b, c, d]) == PieceText(b) + TextOf([c, d]);
    assert ArePieces([c, d]) <==> IsPiece(c) && IsPiece(d);
    assert ArePieces([b, c, d]) <==> IsPiece(b) && ArePieces([c, d]);
  }

  lemma ReadsNumber(s: Text)
    requires StartsNumber(s)
    ensures ReadJson(s) == NumberOf(ScanNumber(s).0)
  {
    hide ReadToken, ScanNumber, NumberOf;
    NumberStarts(s);
    assert SkipWhiteSpace(s) == Ok(s);
    NumberIsValue(s);
  }

  lemma NumberIsValue(s: Text)
    requires StartsNumber(s)
    ensures ReadNumber(s).Ok? <==> NumberOf(ScanNumber(s).0).Ok?
    ensures if ReadNumber(s).Ok? then Ok(ReadNumber(s).value.0) == NumberOf(ScanNumber(s).0)
            else Err(ReadNumber(s).error) == NumberOf(ScanNumber(s).0)
  {
  }

  lemma TopDiffers(n: NumberText, o: NumberText)
    requires n.WellShaped() && o.WellShaped() && o.sign == []
    requires NumberOf(Fused(n, o)) != NumberOf(n)
    ensures !MinifiesAlike([] + TwoNumbers(n, o) + [NEWLINE_PIECE])
  {
    TopLayout(n, o);
    var behind: Text := [SPACE] + (o.ToText() + [NEWLINE]);
    WhitespaceIsNoDigit(SPACE);
    ReadsFirst(n, behind);
    StartsAlike(n, o.ToText() + []);
    FusedIsScanned(n, o, []);
    hide ReadJson, ScanNumber, NumberOf, Minified, TextOf, Fused;
    ReadsNumber(n.ToText() + (o.ToText() + []));
  }

  lemma StartsAlike(n: NumberText, rest: Text)
    requires n.WellShaped()
    ensures StartsNumber(n.ToText() + rest)
  {
    ScanComplete(n, []);
  }

  /** Within brackets: two zeros in a row are an error, and the fused one is an item. */
  lemma ZerosDiffer(n: NumberText, o: NumberText)
    requires n.WellShaped() && o.WellShaped() && o.sign == [] && AreZeros(n, o)
    ensures !MinifiesAlike([Lex(Sign(OPEN_BRACKET))] + TwoNumbers(n, o) + [Lex(Sign(CLOSE_BRACKET)), NEWLINE_PIECE])
  {
    hide ReadJson, Minified, TextOf, AreZeros;
    BracketLayout(n, o);
    ZerosApart(n, o);
    ZerosFused(n, o);
  }

  lemma BracketLayout(n: NumberText, o: NumberText)
    requires n.WellShaped() && o.WellShaped()
    ensures var ps := [Lex(Sign(OPEN_BRACKET))] + TwoNumbers(n, o) + [Lex(Sign(CLOSE_BRACKET)), NEWLINE_PIECE];
            && TextOf(ps) == [OPEN_BRACKET] + (n.ToText() + ([SPACE] + (o.ToText() + [CLOSE_BRACKET, NEWLINE])))
            && Minified(TextOf(ps)) == [OPEN_BRACKET] + (n.ToText() + (o.ToText() + [CLOSE_BRACKET]))
  {
    var l, r := Lex(Sign(OPEN_BRACKET)), Lex(Sign(CLOSE_BRACKET));
    var a, b, c, d := Lex(Number(n)), White(SPACE), Lex(Number(o)), NEWLINE_PIECE;
    var ps := [l, a, b, c, r, d];
    assert [l] + TwoNumbers(n, o) + [r, d] == ps;
    assert ps == [l] + [a, b, c, r] + [d];
    FourPieces(a, b, c, r);
    OnePiece(l);
    OnePiece(d);
    PiecesAppend([l], [a, b, c, r]);
    PiecesAppend([l] + [a, b, c, r], [d]);
    TextOfAppend([l], [a, b, c, r]);
    TextOfAppend([l] + [a, b, c, r], [d]);
    SignText(OPEN_BRACKET);
    SignText(CLOSE_BRACKET);
    BracketText(n.ToText(), o.ToText());
    hide TextOf, ArePieces;
    MinifiedPieces(ps);
    CompactBracket(l, a, b, c, r, d);
    BracketKeptText(l, a, c, r);
  }

  lemma BracketKeptText(l: Piece, a: Piece, c: Piece, r: Piece)
    ensures TextOf([l, a, c, r]) == PieceText(l) + (PieceText(a) + (PieceText(c) + PieceText(r)))
  {
    FourPieces(l, a, c, r);
  }

  lemma BracketText(n: Text, o: Text)
    ensures [OPEN_BRACKET] + (n + ([SPACE] + (o + [CLOSE_BRACKET]))) + [NEWLINE]
            == [OPEN_BRACKET] + (n + ([SPACE] + (o + [CLOSE_BRACKET, NEWLINE])))
  {
    Regrouped([OPEN_BRACKET], n + ([SPACE] + (o + [CLOSE_BRACKET])), [NEWLINE]);
    Regrouped(n, [SPACE] + (o + [CLOSE_BRACKET]), [NEWLINE]);
    Regrouped([SPACE], o + [CLOSE_BRACKET], [NEWLINE]);
    Regrouped(o, [CLOSE_BRACKET], [NEWLINE]);
    assert [CLOSE_BRACKET] + [NEWLINE] == [CLOSE_BRACKET, NEWLINE];
  }

  lemma {:induction false} CompactQuiet(pending: seq<Piece>, ps: seq<Piece>, rest: seq<Piece>)
    requires AreQuiet(ps)
    ensures Compact(pending, ps + rest) == Compact(pending + ps, rest)
    decreases |ps|
  {
    if ps == [] {
      assert ps + rest == rest && pending + ps == pending;
    } else {
      assert IsQuietPiece(ps[0]) && (ps + rest)[1..] == ps[1..] + rest;
      CompactQuiet(pending + [ps[0]], ps[1..], rest);
      assert pending + [ps[0]] + ps[1..] == pending + ps;
    }
  }

  lemma CompactBracket(l: Piece, a: Piece, b: Piece, c: Piece, r: Piece, d: Piece)
    requires d == NEWLINE_PIECE && b == White(SPACE)
    requires l.Lex? && a.Lex? && c.Lex? && r.Lex? && AreQuiet([l, a, b, c, r])
    ensures Compact([], [l, a, b, c, r, d]) == [l, a, c, r]
  {
    var five := [l, a, b, c, r];
    assert [l, a, b, c, r, d] == five + [d] && [] + five == five;
    CompactQuiet([], five, [d]);
    assert [d][1..] == [];
    assert Compact(five, [d]) == Keep(five) + Compact([], []);
    var k1, k2, k3, k4 := [a, b, c, r], [b, c, r], [c, r], [r];
    assert five[1..] == k1 && k1[1..] == k2 && k2[1..] == k3 && k3[1..] == k4 && k4[1..] == [];
    assert Keep(k4) == [r] && Keep(k3) == [c] + [r];
    assert Keep(k2) == [] + Keep(k3);
    assert Keep(k1) == [a] + Keep(k2);
  }

  lemma ZeroIsRead(n: NumberText, rest: Text)
    requires n.WellShaped() && !n.IsFloatingPoint() && n.whole != [] && DigitsValue(n.whole) == 0 && EndsNumber(rest)
    ensures Read(n.ToText() + rest) == Ok((Value(Int(0)), rest))
  {
    hide DigitsValue;
    assert NumberOf(n) == Ok(Int(0));
    hide ReadToken;
    LexemeStarts(Number(n), rest);
    ReadLexeme(Number(n), rest);
  }

  lemma SpaceIsSkipped(s: Text)
    ensures Read([SPACE] + s) == Read(s)
  {
    hide ReadToken;
    assert ([SPACE] + s)[1..] == s;
  }

  lemma ZerosApart(n: NumberText, o: NumberText)
    requires n.WellShaped() && o.WellShaped() && AreZeros(n, o)
    ensures ReadJson([OPEN_BRACKET] + (n.ToText() + ([SPACE] + (o.ToText() + [CLOSE_BRACKET, NEWLINE])))) == Err(Malformed)
  {
    var t2 := o.ToText() + [CLOSE_BRACKET, NEWLINE];
    var t1 := [SPACE] + t2;
    WhitespaceIsNoDigit(SPACE);
    ZeroIsRead(n, t1);
    ZeroIsRead(o, [CLOSE_BRACKET, NEWLINE]);
    SpaceIsSkipped(t2);
    hide Read;
    ReadsArray(n.ToText() + t1);
    assert ReadItems(Value(Int(0)), t1) == Err(Malformed);
    assert ReadArray(n.ToText() + t1) == Err(Malformed);
  }

  lemma FusedIsZero(n: NumberText, o: NumberText)
    requires n.WellShaped() && o.WellShaped() && o.sign == [] && AreZeros(n, o)
    ensures var f := Fused(n, o);
            && f.WellShaped() && !f.IsFloatingPoint() && f.whole != [] && DigitsValue(f.whole) == 0
            && f.ToText() == n.ToText() + o.ToText()
  {
    hide DigitsValue;
    ValueOfBoth(n.whole, o.whole);
    assert n.ToText() == n.sign + n.whole && o.ToText() == o.whole;
    Regrouped(n.sign, n.whole, o.whole);
    assert Fused(n, o).ToText() == n.sign + (n.whole + o.whole);
  }

  lemma ZerosFused(n: NumberText, o: NumberText)
    requires n.WellShaped() && o.WellShaped() && o.sign == [] && AreZeros(n, o)
    ensures ReadJson([OPEN_BRACKET] + (n.ToText() + (o.ToText() + [CLOSE_BRACKET]))).Ok?
  {
    hide Read, DigitsValue, AreZeros, Fused;
    var f := Fused(n, o);
    var end: Text := [CLOSE_BRACKET];
    FusedIsZero(n, o);
    Regrouped(n.ToText(), o.ToText(), end);
    ZeroIsRead(f, end);
    ClosingIsRead();
    ReadsArray(f.ToText() + end);
    LastItem(Value(Int(0)), end);
    FirstItem(Value(Int(0)), f.ToText() + end, end);
  }

  lemma ClosingIsRead()
    ensures Read([CLOSE_BRACKET]) == Ok((Punctuation(ArrayEnd), []))
  {
    var end: Text := [CLOSE_BRACKET];
    ReadsLexeme(Sign(CLOSE_BRACKET), []);
    SignText(CLOSE_BRACKET);
    assert end + [] == end;
  }

  /** Neither the number nor what it is scanned as with the other one behind it can be read. */
  predicate AreRefused(n: NumberText, o: NumberText) {
    NumberOf(n).Err? && NumberOf(Fused(n, o)).Err?
  }

  /**
   * Minifying keeps the meaning of a text with a number and another one behind it, whatever stands around them, exactly when
   * the other one has a sign, or the text is refused at the first one with the gap and without.
   */
  lemma SignedIffAlike(n: NumberText, o: NumberText)
    requires n.WellShaped() && o.WellShaped()
    ensures o.sign != [] || AreRefused(n, o) <==> forall ps, qs :: AlikeWithNumbers(ps, n, o, qs)
  {
    hide MinifiesAlike, NumberOf, Fused;
    if o.sign != [] {
      forall ps, qs
        ensures AlikeWithNumbers(ps, n, o, qs)
      {
        SignedAlike(ps, n, o, qs);
      }
    } else if AreRefused(n, o) {
      forall ps, qs
        ensures AlikeWithNumbers(ps, n, o, qs)
      {
        BothRefused(ps, n, o, qs);
      }
    } else if NumberOf(Fused(n, o)) != NumberOf(n) {
      TopDiffers(n, o);
      AroundTop(n, o);
      assert !AlikeWithNumbers([], n, o, [NEWLINE_PIECE]);
    } else {
      FusedIsOther(n, o);
      ZerosDiffer(n, o);
      AroundZeros(n, o);
      assert !AlikeWithNumbers([Lex(Sign(OPEN_BRACKET))], n, o, [Lex(Sign(CLOSE_BRACKET)), NEWLINE_PIECE]);
    }
  }

  // ---------------------------------------------------------------- numbers that cannot be read

  lemma {:induction false} SplitAt(ps: seq<Piece>, a: seq<Lexeme>, l: Lexeme, b: seq<Lexeme>)
    returns (before: seq<Piece>, after: seq<Piece>)
    requires Lexemes(ps) == a + [l] + b
    ensures ps == before + [Lex(l)] + after && Lexemes(before) == a && Lexemes(after) == b
  {
    assert ps != [];
    if ps[0].Lex? && a == [] {
      before, after := [], ps[1..];
      assert (a + [l] + b)[0] == l && (a + [l] + b)[1..] == b;
      assert ([ps[0].lexeme] + Lexemes(after))[1..] == Lexemes(after);
    } else if ps[0].Lex? {
      assert (a + [l] + b)[1..] == a[1..] + [l] + b && a == [a[0]] + a[1..];
      assert ([ps[0].lexeme] + Lexemes(ps[1..]))[1..] == Lexemes(ps[1..]);
      before, after := SplitAt(ps[1..], a[1..], l, b);
      assert ([ps[0]] + before)[1..] == before;
      before := [ps[0]] + before;
    } else {
      before, after := SplitAt(ps[1..], a, l, b);
      assert ([ps[0]] + before)[1..] == before;
      before := [ps[0]] + before;
    }
  }

  lemma {:induction false} LastApart(a: seq<Lexeme>, l: Lexeme)
    requires NumbersApart(a + [l])
    ensures NumbersApart(a)
    ensures a != [] && a[|a| - 1].Number? && l.Number? ==> l.n.sign != []
  {
    if a != [] {
      assert (a + [l])[1..] == a[1..] + [l];
      LastApart(a[1..], l);
      assert a[1..] != [] ==> (a[1..] + [l])[0] == a[1..][0];
    }
  }

  /** What stands before the first of the two numbers, and the text from there on. */
  lemma RefusedFrom(ps: seq<Piece>, a: seq<Lexeme>, n: NumberText, o: NumberText, b: seq<Lexeme>)
    returns (before: seq<Piece>, t: Text)
    requires AllClear(ps) && Lexemes(ps) == a + [Number(n)] + ([Number(o)] + b)
    requires n.WellShaped() && o.WellShaped() && o.sign == [] && AreRefused(n, o)
    requires NumbersApart(a + [Number(n)]) && NumbersApart([Number(o)] + b)
    ensures TextOf(ps) == TextOf(before) + t && AllClear(before) && Lexemes(before) == a && NumbersApart(a)
    ensures t != [] && IsRefused(t) && Parted(a, t)
  {
    hide AreRefused, NumberOf, Fused, IsClear, ScanNumber, NumbersApart, IsRefused;
    var after;
    before, after := SplitAt(ps, a, Number(n), [Number(o)] + b);
    var first := Lex(Number(n));
    TextOfAppend(before + [first], after);
    TextOfAppend(before, [first]);
    OnePiece(first);
    Regrouped(TextOf(before), n.ToText(), TextOf(after));
    t := n.ToText() + TextOf(after);
    ClearParts(before, first, after);
    LastApart(a, Number(n));
    StartsParted(a, n, TextOf(after));
    RefusedBehind(n, o, after, b);
    RefusedStands(t);
  }

  lemma RefusedStands(t: Text)
    requires StartsNumber(t) && NumberOf(ScanNumber(t).0) == Err(NumberFormat)
    ensures IsRefused(t) && t != []
  {
  }

  lemma ClearParts(before: seq<Piece>, p: Piece, after: seq<Piece>)
    requires AllClear(before + [p] + after)
    ensures AllClear(before) && AllClear(after)
  {
    hide IsClear;
    var ps := before + [p] + after;
    assert forall i :: 0 <= i < |before| ==> before[i] == ps[i];
    assert forall i :: 0 <= i < |after| ==> after[i] == ps[|before| + 1 + i];
  }

  lemma StartsParted(a: seq<Lexeme>, n: NumberText, rest: Text)
    requires n.WellShaped() && (a != [] && a[|a| - 1].Number? ==> n.sign != [])
    ensures Parted(a, n.ToText() + rest) && StartsNumber(n.ToText() + rest)
  {
    StartsAlike(n, rest);
    LexemeStarts(Number(n), rest);
  }

  lemma RefusedBehind(n: NumberText, o: NumberText, after: seq<Piece>, b: seq<Lexeme>)
    requires n.WellShaped() && o.WellShaped() && o.sign == [] && AreRefused(n, o)
    requires AllClear(after) && Lexemes(after) == [Number(o)] + b && NumbersApart([Number(o)] + b)
    ensures NumberOf(ScanNumber(n.ToText() + TextOf(after)).0) == Err(NumberFormat)
  {
    hide Fused, ScanNumber, IsClear;
    if after[0].Lex? {
      var rest := after[1..];
      assert after[0].lexeme == Number(o) && ([Number(o)] + Lexemes(rest))[1..] == ([Number(o)] + b)[1..];
      assert [Number(o)] + Lexemes(rest) == Lexemes(after);
      BehindLexeme(rest, Number(o), []);
      OntoIs(rest, []);
      FusedIsScanned(n, o, TextOf(rest) + []);
      assert TextOf(rest) + [] == TextOf(rest);
    } else {
      GapEnds(after);
      ScanComplete(n, TextOf(after));
    }
  }

  lemma GapEnds(ps: seq<Piece>)
    requires ps != [] && !ps[0].Lex? && IsClear(ps[0])
    ensures EndsNumber(TextOf(ps))
  {
    if ps[0].White? {
      WhitespaceIsNoDigit(ps[0].c);
    }
  }

  lemma BothRefused(ps: seq<Piece>, n: NumberText, o: NumberText, qs: seq<Piece>)
    requires n.WellShaped() && o.WellShaped() && o.sign == [] && AreRefused(n, o)
    ensures AlikeWithNumbers(ps, n, o, qs)
  {
    hide AreRefused, IsClear, ReadJson, Minified, NumberOf, ScanNumber;
    if ArePieces(ps) && AllClear(ps) && ArePieces(qs) && AllClear(qs)
       && NumbersApart(Lexemes(ps) + [Number(n)]) && NumbersApart([Number(o)] + Lexemes(qs)) {
      var all := ps + TwoNumbers(n, o) + qs;
      LayoutWithNumbers(ps, n, o, qs);
      MinifiedPieces(all);
      CompactLexemes([], all);
      CompactClear([], all);
      assert [] + Lexemes(all) == Lexemes(all);
      var before, t := RefusedFrom(all, Lexemes(ps), n, o, Lexemes(qs));
      var before', t' := RefusedFrom(Compact([], all), Lexemes(ps), n, o, Lexemes(qs));
      RefusedAlike(before, t, before', t');
    }
  }

  lemma LayoutWithNumbers(ps: seq<Piece>, n: NumberText, o: NumberText, qs: seq<Piece>)
    requires n.WellShaped() && o.WellShaped()
    requires ArePieces(ps) && AllClear(ps) && ArePieces(qs) && AllClear(qs)
    ensures var all := ps + TwoNumbers(n, o) + qs;
            && ArePieces(all) && AllClear(all)
            && Lexemes(all) == Lexemes(ps) + [Number(n)] + ([Number(o)] + Lexemes(qs))
  {
    hide IsClear;
    var two := TwoNumbers(n, o);
    NumberPieces(n, o);
    LexemesAppend(ps, two);
    LexemesAppend(ps + two, qs);
    PiecesAppend(ps, two);
    PiecesAppend(ps + two, qs);
    assert [Number(n), Number(o)] == [Number(n)] + [Number(o)];
    Regrouped(Lexemes(ps), [Number(n)], [Number(o)]);
    Regrouped(Lexemes(ps) + [Number(n)], [Number(o)], Lexemes(qs));
  }

  lemma AroundTop(n: NumberText, o: NumberText)
    ensures var qs := [NEWLINE_PIECE];
            && ArePieces([]) && AllClear([]) && ArePieces(qs) && AllClear(qs)
            && NumbersApart(Lexemes([]) + [Number(n)]) && NumbersApart([Number(o)] + Lexemes(qs))
  {
    OnePiece(NEWLINE_PIECE);
    assert [] + [Number(n)] == [Number(n)] && [Number(o)] + [] == [Number(o)];
    assert [Number(n)][1..] == [] && [Number(o)][1..] == [];
  }

  lemma AroundZeros(n: NumberText, o: NumberText)
    ensures var ps, qs := [Lex(Sign(OPEN_BRACKET))], [Lex(Sign(CLOSE_BRACKET)), NEWLINE_PIECE];
            && ArePieces(ps) && AllClear(ps) && ArePieces(qs) && AllClear(qs)
            && NumbersApart(Lexemes(ps) + [Number(n)]) && NumbersApart([Number(o)] + Lexemes(qs))
  {
    var a, b := Lex(Sign(OPEN_BRACKET)), Lex(Sign(CLOSE_BRACKET));
    OnePiece(a);
    OnePiece(NEWLINE_PIECE);
    assert [b, NEWLINE_PIECE][1..] == [NEWLINE_PIECE];
    assert Lexemes([b, NEWLINE_PIECE]) == [b.lexeme] + [];
    assert [a.lexeme] + [Number(n)] == [a.lexeme, Number(n)] && [Number(o)] + [b.lexeme] == [Number(o), b.lexeme];
    assert [a.lexeme, Number(n)][1..] == [Number(n)] && [Number(n)][1..] == [];
    assert [Number(o), b.lexeme][1..] == [b.lexeme] && [b.lexeme][1..] == [];
  }

  lemma {:induction false} ApartTogether(a: seq<Lexeme>, n: NumberText, o: NumberText, b: seq<Lexeme>)
    requires NumbersApart(a + [Number(n)]) && NumbersApart([Number(o)] + b) && o.sign != []
    ensures NumbersApart(a + [Number(n)] + ([Number(o)] + b))
  {
    var all := a + [Number(n)] + ([Number(o)] + b);
    if a == [] {
      assert all == [Number(n)] + ([Number(o)] + b) && all[1..] == [Number(o)] + b;
    } else {
      assert (a + [Number(n)])[1..] == a[1..] + [Number(n)];
      ApartTogether(a[1..], n, o, b);
      assert all[1..] == a[1..] + [Number(n)] + ([Number(o)] + b);
      assert StartsWithDigitLexeme(all[1..]) <==> StartsWithDigitLexeme(a[1..] + [Number(n)]);
    }
  }

  lemma SignedAlike(ps: seq<Piece>, n: NumberText, o: NumberText, qs: seq<Piece>)
    requires n.WellShaped() && o.WellShaped() && o.sign != []
    ensures AlikeWithNumbers(ps, n, o, qs)
  {
    hide MinifiesAlike, IsClear;
    if ArePieces(ps) && AllClear(ps) && ArePieces(qs) && AllClear(qs)
       && NumbersApart(Lexemes(ps) + [Number(n)]) && NumbersApart([Number(o)] + Lexemes(qs)) {
      LayoutWithNumbers(ps, n, o, qs);
      ApartTogether(Lexemes(ps), n, o, Lexemes(qs));
      MinifyKeepsMeaning(ps + TwoNumbers(n, o) + qs);
    }
  }

  lemma NumberPieces(n: NumberText, o: NumberText)
    requires n.WellShaped() && o.WellShaped()
    ensures var two := TwoNumbers(n, o); ArePieces(two) && AllClear(two) && Lexemes(two) == [Number(n), Number(o)]
  {
    var a, b, c := Lex(Number(n)), White(SPACE), Lex(Number(o));
    assert [a, b, c][1..] == [b, c] && [b, c][1..] == [c];
    OnePiece(c);
    assert Lexemes([b, c]) == [] + [Number(o)];
    assert Lexemes([a, b, c]) == [Number(n)] + [Number(o)];
  }

  const ONE_NUMBER := NumberText([], [0x31], [], [])
  const TWO_NUMBER := NumberText([], [0x32], [], [])

  /** The text `1 2` with a line end behind it is read as one, its minified form as twelve. */
  lemma NumbersRunTogether()
    ensures var s: Text := [0x31, SPACE, 0x32, NEWLINE];
            ReadJson(s) == Ok(Int(1)) && ReadJson(Minified(s)) == Ok(Int(12))
  {
    var n, o := ONE_NUMBER, TWO_NUMBER;
    var behind := [SPACE] + (o.ToText() + [NEWLINE]);
    OneAndTwelve();
    TopLayout(n, o);
    assert n.ToText() + behind == [0x31, SPACE, 0x32, NEWLINE];
    ReadsFirst(n, behind);
    FusedIsScanned(n, o, []);
    StartsAlike(n, o.ToText() + []);
    hide ReadJson, Minified, NumberOf, ScanNumber;
    ReadsNumber(n.ToText() + (o.ToText() + []));
  }

  lemma ReadsFirst(n: NumberText, rest: Text)
    requires n.WellShaped() && EndsNumber(rest)
    ensures ReadJson(n.ToText() + rest) == NumberOf(n)
  {
    hide ReadJson, NumberOf;
    ScanComplete(n, rest);
    StartsAlike(n, rest);
    ReadsNumber(n.ToText() + rest);
  }

  lemma OneAndTwelve()
    ensures ONE_NUMBER.WellShaped() && TWO_NUMBER.WellShaped() && ONE_NUMBER.ToText() == [0x31] && TWO_NUMBER.ToText() == [0x32]
    ensures NumberOf(ONE_NUMBER) == Ok(Int(1)) && NumberOf(Fused(ONE_NUMBER, TWO_NUMBER)) == Ok(Int(12))
    ensures EndsNumber([SPACE] + (TWO_NUMBER.ToText() + [NEWLINE]))
  {
    var one: Text, two: Text := [0x31], [0x32];
    TwelveValue();
    hide DigitsValue;
    WhitespaceIsNoDigit(SPACE);
    assert one + ([] + []) == one && two + ([] + []) == two && [] + one == one && [] + two == two;
  }

  lemma TwelveValue()
    ensures var one: Text, two: Text := [0x31], [0x32]; DigitsValue(one) == 1 && DigitsValue(one + two) == 12
  {
    var one: Text, two: Text := [0x31], [0x32];
    assert one[..0] == [] && (one + two)[..1] == one;
  }
}
