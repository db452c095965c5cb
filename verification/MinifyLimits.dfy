/** Where minifying keeps the meaning of a text and where it does not: comments and strings, one at a time. */
module MinifyLimits {
  import opened Units
  import opened JsonValues
  import opened Numbers
  import opened ReaderSpec
  import opened Minifier
  import opened Layout
  import opened MinifyLayout
  import opened Comments
  import opened ReadLayout

  // ---------------------------------------------------------------- comments that are not clear

  const ONE_TEXT: Text := [0x31]

  lemma ReadOne()
    ensures IsLexeme(Number(NumberText([], ONE_TEXT, [], []))) && LexText(Number(NumberText([], ONE_TEXT, [], []))) == ONE_TEXT
    ensures ReadJson(ONE_TEXT) == Ok(Int(1))
  {
    var n := NumberText([], ONE_TEXT, [], []);
    assert n.ToText() == ONE_TEXT && ONE_TEXT + [] == ONE_TEXT && ONE_TEXT[..0] == [];
    ReadLexeme(Number(n), []);
    assert DigitsValue(ONE_TEXT) == 1;
  }

  lemma ReadNull()
    ensures ReadJson(NULL_WORD) == Ok(Null)
  {
    ReadLexeme(Keyword(NULL_WORD), []);
    assert NULL_WORD + [] == NULL_WORD;
  }

  /** A lexeme that the reader does not take the text of the comment for. */
  function Contrast(p: Piece): (l: Lexeme) {
    if PassageThrough(p) == Meets(NULL_WORD[0]) then Number(NumberText([], ONE_TEXT, [], [])) else Keyword(NULL_WORD)
  }

  lemma ContrastReads(p: Piece)
    ensures IsLexeme(Contrast(p)) && !Contrast(p).String? && IsMute(LexText(Contrast(p)))
    ensures ReadJson(LexText(Contrast(p))) ==
      if PassageThrough(p) == Meets(NULL_WORD[0]) then Ok(Int(1)) else Ok(Null)
  {
    ReadOne();
    ReadNull();
  }

  /** Whatever a text begins with tells null from the number one. */
  lemma BeginningTells(t: Text)
    requires t != []
    ensures t[0] == NULL_WORD[0] ==> !(ReadToken(t).Ok? && ReadToken(t).value.0 == Value(Int(1)))
    ensures t[0] != NULL_WORD[0] ==> !(ReadToken(t).Ok? && ReadToken(t).value.0 == Value(Null))
  {
    hide ReadString, ReadArray, ReadObject, ReadNumber, IsDigit;
    NumberIsNoNull(t);
  }

  lemma NumberIsNoNull(t: Text)
    ensures StartsNumber(t) && ReadNumber(t).Ok? ==> ReadNumber(t).value.0 != Null
  {
  }

  lemma ContrastStands(p: Piece)
    ensures var ps := [Lex(Contrast(p))];
            && ArePieces([]) && AllClear([]) && ArePieces(ps) && AllClear(ps)
            && [] + ps == ps && Lexemes(ps) == [Contrast(p)] && NumbersApart(Lexemes([] + ps))
  {
    hide Contrast;
    var q := Lex(Contrast(p));
    ContrastReads(p);
    OnePiece(q);
    LexIsClear(q);
    assert [] + [q] == [q];
    assert [Contrast(p)][1..] == [];
  }

  /** The layouts of a comment with its contrast behind it. */
  lemma CommentThenContrast(p: Piece)
    requires p.Line? || p.Block?
    requires IsPiece(p)
    ensures var ps := [] + [p] + [Lex(Contrast(p))];
            && ArePieces(ps) && Lexemes(ps) == [Contrast(p)] && NumbersApart(Lexemes(ps))
            && TextOf(ps) == PieceText(p) + LexText(Contrast(p))
  {
    hide Contrast;
    var q := Lex(Contrast(p));
    assert [] + [p] + [q] == [p] + [q];
    ContrastStands(p);
    OnePiece(q);
    OnePiece(p);
    TextOfAppend([p], [q]);
    LexemesAppend([p], [q]);
    PiecesAppend([p], [q]);
    assert [] + [Contrast(p)] == [Contrast(p)] && [Contrast(p)][1..] == [];
  }

  lemma Diverges(p: Piece)
    requires p.Line? || p.Block?
    requires IsPiece(p) && !IsClear(p)
    ensures !MinifiesAlike([] + [p] + [Lex(Contrast(p))])
  {
    hide Contrast, SkipWhiteSpace, ReadToken, Minified;
    var q := Lex(Contrast(p));
    CommentThenContrast(p);
    ContrastStands(p);
    ContrastReads(p);
    OnePiece(q);
    MinifiedReads([] + [p] + [q], [q]);
    var s := PieceText(p) + LexText(Contrast(p));
    CommentFinds(p, LexText(Contrast(p)));
    if PassageThrough(p).Meets? {
      BeginningTells(SkipWhiteSpace(s).value);
    }
  }

  /** The text with a piece between any two layouts, and its minified form. */
  predicate AlikeAround(ps: seq<Piece>, p: Piece, qs: seq<Piece>) {
    ArePieces(ps) && AllClear(ps) && ArePieces(qs) && AllClear(qs) && NumbersApart(Lexemes(ps + [p] + qs))
    ==> MinifiesAlike(ps + [p] + qs)
  }

  /** Minifying keeps the meaning of a text with a comment, whatever stands around it, exactly when that is clear. */
  lemma ClearIffAlike(p: Piece)
    requires p.Line? || p.Block?
    requires IsPiece(p)
    ensures IsClear(p) <==> forall ps, qs :: AlikeAround(ps, p, qs)
  {
    hide MinifiesAlike, IsClear, Contrast, AllClear, ArePieces, NumbersApart, Lexemes;
    if IsClear(p) {
      forall ps, qs
        ensures AlikeAround(ps, p, qs)
      {
        ClearAlike(ps, p, qs);
      }
    } else {
      ContrastStands(p);
      CommentThenContrast(p);
      Diverges(p);
      assert !AlikeAround([], p, [Lex(Contrast(p))]);
    }
  }

  lemma ClearAlike(ps: seq<Piece>, p: Piece, qs: seq<Piece>)
    requires IsPiece(p) && IsClear(p)
    ensures AlikeAround(ps, p, qs)
  {
    hide MinifiesAlike, IsClear;
    if ArePieces(ps) && AllClear(ps) && ArePieces(qs) && AllClear(qs) && NumbersApart(Lexemes(ps + [p] + qs)) {
      Push(ps, p);
      PiecesAppend(ps + [p], qs);
      MinifyKeepsMeaning(ps + [p] + qs);
    }
  }

  /** A comment whose body is one star: the reader pairs its stars and finds no end, and minifying mends the text. */
  lemma StarredCommentDiffers()
    ensures var p := Block([STAR]);
            && IsPiece(p) && PassageThrough(p) == Stuck
            && ReadJson(PieceText(p) + ONE_TEXT) == Err(Malformed) && ReadJson(Minified(PieceText(p) + ONE_TEXT)) == Ok(Int(1))
  {
    var p := Block([STAR]);
    var one := Number(NumberText([], ONE_TEXT, [], []));
    ReadOne();
    OnePiece(p);
    OnePiece(Lex(one));
    TextOfAppend([p], [Lex(one)]);
    LexemesAppend([p], [Lex(one)]);
    PiecesAppend([p], [Lex(one)]);
    assert [STAR][1..] == [];
    assert Lexemes([p] + [Lex(one)]) == [one] && [one][1..] == [];
    LexIsClear(Lex(one));
    MinifiedReads([p] + [Lex(one)], [Lex(one)]);
    CommentFinds(p, ONE_TEXT);
  }

  /** A comment that the reader ends too early, and then takes the rest of for a second comment: it is clear. */
  lemma ClearWithinItself()
    ensures var body: Text := [SLASH, STAR, SLASH, SLASH, STAR];
            IsPiece(Block(body)) && !ReaderPasses(body) && IsClear(Block(body))
  {
    var body: Text := [SLASH, STAR, SLASH, SLASH, STAR];
    var b1: Text, b2: Text, b3: Text := [STAR, SLASH, SLASH, STAR], [SLASH, SLASH, STAR], [SLASH, STAR];
    assert body[1..] == b1 && body[2..] == b2 && b1[2..] == b3 && b2[2..] == [STAR] && b3[2..] == [];
    assert [STAR][1..] == [] && TokenizerPasses([]) && TokenizerPasses([STAR]) && TokenizerPasses(b2);
    assert PassageOf(WithinBlock, [], true) == Through && PassageOf(Outside, b3, true) == Through;
    assert PassageOf(WithinBlock, b1, true) == Through;
  }

  // ---------------------------------------------------------------- strings that the tokenizer does not close

  const COMMA_SIGN := Sign(Units.COMMA)
  const SPACED: Text := [0x61, SPACE]
  const UNSPACED: Text := [0x61]

  /** An array of two strings. */
  function PairOf(raw: Text, other: Text): seq<Piece> {
    [Lex(Sign(OPEN_BRACKET)), Lex(String(raw)), Lex(COMMA_SIGN), Lex(String(other)), Lex(Sign(CLOSE_BRACKET))]
  }

  lemma PairText(raw: Text, other: Text)
    ensures TextOf(PairOf(raw, other)) ==
      [OPEN_BRACKET] + (LexText(String(raw)) + ([Units.COMMA] + (LexText(String(other)) + [CLOSE_BRACKET])))
  {
    hide LexText;
    var ps := PairOf(raw, other);
    var p1, p2, p3, p4 := ps[1..], ps[2..], ps[3..], ps[4..];
    assert p1[1..] == p2 && p2[1..] == p3 && p3[1..] == p4 && p4[1..] == [];
    SignText(OPEN_BRACKET);
    SignText(Units.COMMA);
    SignText(CLOSE_BRACKET);
    assert TextOf(p4) == [CLOSE_BRACKET] + [];
    assert TextOf(p3) == LexText(String(other)) + TextOf(p4);
    assert TextOf(p2) == [Units.COMMA] + TextOf(p3);
    assert TextOf(p1) == LexText(String(raw)) + TextOf(p2);
  }

  lemma SignText(c: Unit)
    ensures LexText(Sign(c)) == [c]
  {
  }

  lemma ReadPair(raw: Text, other: Text)
    requires IsBody(raw) && IsBody(other)
    ensures ReadJson(TextOf(PairOf(raw, other))) == Ok(Arr([Str(Decoded(raw)), Str(Decoded(other))]))
  {
    hide LexText, IsBody, Decoded, SkipWhiteSpace, ReadToken;
    PairText(raw, other);
    var t4: Text := [CLOSE_BRACKET];
    var t3 := LexText(String(other)) + t4;
    var t2 := [Units.COMMA] + t3;
    var t1 := LexText(String(raw)) + t2;
    assert [CLOSE_BRACKET] + [] == t4;
    ReadsLexeme(Sign(CLOSE_BRACKET), []);
    ReadsLexeme(String(other), t4);
    ReadsLexeme(Sign(Units.COMMA), t3);
    ReadsLexeme(String(raw), t2);
    SignText(CLOSE_BRACKET);
    SignText(Units.COMMA);
    ReadsArray(t1);
    PairItems(raw, other, t1, t2, t3, t4);
  }

  lemma ReadsLexeme(l: Lexeme, rest: Text)
    requires IsLexeme(l) && (l.String? || l == Sign(CLOSE_BRACKET) || l == Sign(Units.COMMA))
    ensures Read(LexText(l) + rest) == Ok((LexToken(l).value, rest))
  {
    hide LexToken, IsBody, ReadToken;
    LexemeStarts(l, rest);
    ReadLexeme(l, rest);
    TokenIs(l);
  }

  lemma TokenIs(l: Lexeme)
    requires IsLexeme(l) && (l.String? || l == Sign(CLOSE_BRACKET) || l == Sign(Units.COMMA))
    ensures LexToken(l).Ok?
  {
  }

  lemma ReadsArray(s: Text)
    ensures Read([OPEN_BRACKET] + s) ==
      if ReadArray(s).Ok? then Ok((Value(Arr(ReadArray(s).value.0)), ReadArray(s).value.1)) else Err(ReadArray(s).error)
  {
    hide ReadArray;
    assert ([OPEN_BRACKET] + s)[1..] == s;
  }

  lemma PairItems(raw: Text, other: Text, t1: Text, t2: Text, t3: Text, t4: Text)
    requires IsBody(raw) && IsBody(other)
    requires Read(t1) == Ok((LexToken(String(raw)).value, t2)) && Read(t2) == Ok((LexToken(COMMA_SIGN).value, t3))
    requires Read(t3) == Ok((LexToken(String(other)).value, t4)) && Read(t4) == Ok((LexToken(Sign(CLOSE_BRACKET)).value, []))
    ensures ReadArray(t1) == Ok(([Str(Decoded(raw)), Str(Decoded(other))], []))
  {
    hide Read, Decoded, IsBody, ReadItems, ReadArray;
    var first, second := Value(Str(Decoded(raw))), Value(Str(Decoded(other)));
    assert LexToken(String(raw)).value == first && LexToken(String(other)).value == second;
    assert LexToken(COMMA_SIGN).value == Punctuation(ReaderSpec.Comma);
    assert LexToken(Sign(CLOSE_BRACKET)).value == Punctuation(ArrayEnd);
    hide LexToken;
    LastItem(second, t4);
    ItemThenItem(first, second, t2, t3, t4);
    FirstItem(first, t1, t2);
    assert [first.json] + [second.json] == [first.json, second.json];
  }

  lemma LastItem(last: Token, s: Text)
    requires last.Value? && Read(s) == Ok((Punctuation(ArrayEnd), []))
    ensures ReadItems(last, s) == Ok(([last.json], []))
  {
    hide Read;
  }

  lemma ItemThenItem(first: Token, second: Token, s: Text, s1: Text, s2: Text)
    requires first.Value? && second.Value?
    requires Read(s) == Ok((Punctuation(ReaderSpec.Comma), s1)) && Read(s1) == Ok((second, s2))
    requires ReadItems(second, s2) == Ok(([second.json], []))
    ensures ReadItems(first, s) == Ok(([first.json] + [second.json], []))
  {
    hide Read;
  }

  lemma FirstItem(first: Token, s: Text, s1: Text)
    requires first.Value? && Read(s) == Ok((first, s1))
    ensures ReadArray(s) == ReadItems(first, s1)
  {
    hide Read, ReadItems;
  }

  /** The run up to the quote that should close the string. */
  lemma OpenString(head: Text, raw: Text, rest: Text)
    requires IsBody(raw) && !EndsPlainly(raw)
    ensures Run(head, head, [QUOTE] + (raw + ([QUOTE] + rest)), Plain) ==
            Strip(head) + ([QUOTE] + raw + Run(head + [QUOTE] + raw + [QUOTE], [QUOTE], rest, InString))
  {
    hide Run, IsBody, EndsPlainly, BehindQuote, QuotesEscaped, Strip;
    RunStep(head, head, [QUOTE], raw + ([QUOTE] + rest), Plain);
    StringIsClosed(head, raw);
    assert BehindQuote(head + [QUOTE] + raw) == InString;
    StringRun(head + [QUOTE], [QUOTE], raw, rest);
    assert Strip(head) + [] == Strip(head);
  }

  lemma BracketKept()
    ensures Strip([OPEN_BRACKET]) == [OPEN_BRACKET] && IsQuietText([OPEN_BRACKET])
  {
    var head: Text := [OPEN_BRACKET];
    assert head[1..] == [] && Strip([]) == [] && Strip(head) == head + [];
  }

  /** The tokenizer leaves the string open, and so takes the next one for plain text. */
  lemma OpenRun(raw: Text)
    requires IsBody(raw) && !EndsPlainly(raw)
    ensures Minified(TextOf(PairOf(raw, SPACED))) == TextOf(PairOf(raw, UNSPACED))
  {
    hide Run, IsBody, EndsPlainly, Strip, TextOf, PairOf;
    var u5: Text := [CLOSE_BRACKET];
    var u4 := SPACED + ([QUOTE] + u5);
    var u2 := [Units.COMMA] + ([QUOTE] + u4);
    var head: Text := [OPEN_BRACKET];
    PairText(raw, SPACED);
    StringText(SPACED, u5);
    StringText(raw, u2);
    assert TextOf(PairOf(raw, SPACED)) == head + ([QUOTE] + (raw + ([QUOTE] + u2)));
    BracketKept();
    assert [] + head == head;
    QuietRun([], [], head, [QUOTE] + (raw + ([QUOTE] + u2)), Plain);
    OpenString(head, raw, u2);
    BehindOpen(head + [QUOTE] + raw + [QUOTE], u4);
    OpenText(raw);
  }

  /** From the comma on, inside what the tokenizer takes for the string. */
  lemma BehindOpen(b: Text, u4: Text)
    requires u4 == SPACED + ([QUOTE] + [CLOSE_BRACKET])
    ensures Run(b, [QUOTE], [Units.COMMA] + ([QUOTE] + u4), InString) ==
            [QUOTE, Units.COMMA] + ([QUOTE, 0x61] + [QUOTE, CLOSE_BRACKET])
  {
    hide Run, MagicLength;
    var c: Text, e: Text := [Units.COMMA], [CLOSE_BRACKET];
    QuietRun(b, [QUOTE], c, [QUOTE] + u4, InString);
    assert [QUOTE] + c == [QUOTE, Units.COMMA];
    CommaIsEven(b);
    RunStep(b + c, [QUOTE] + c, [QUOTE], u4, InString);
    var b1 := b + c + [QUOTE];
    QuietRun(b1, [QUOTE], SPACED, [QUOTE] + e, Plain);
    assert [QUOTE] + SPACED == [QUOTE, 0x61, SPACE];
    SpaceStripped();
    RunStep(b1 + SPACED, [QUOTE] + SPACED, [QUOTE], e, Plain);
    QuietRun(b1 + SPACED + [QUOTE], [QUOTE], e, [], InString);
    assert e + [] == e && [QUOTE] + e == [QUOTE, CLOSE_BRACKET];
    RunNothing(b1 + SPACED + [QUOTE] + e, [QUOTE] + e, InString);
  }

  lemma CommaIsEven(b: Text)
    ensures MagicLength(b + [Units.COMMA]) == 0
  {
    var t := b + [Units.COMMA];
    assert t[|t| - 1] == Units.COMMA;
  }

  lemma SpaceStripped()
    ensures Strip([QUOTE, 0x61, SPACE]) == [QUOTE, 0x61]
  {
    var s: Text, s1: Text, s2: Text := [QUOTE, 0x61, SPACE], [0x61, SPACE], [SPACE];
    assert s[1..] == s1 && s1[1..] == s2 && s2[1..] == [];
    assert Strip([]) == [] && IsStripped(SPACE);
    assert Strip(s2) == [];
    assert Strip(s1) == [0x61] + [];
  }

  lemma OpenText(raw: Text)
    ensures [OPEN_BRACKET] + ([QUOTE] + raw + ([QUOTE, Units.COMMA] + ([QUOTE, 0x61] + [QUOTE, CLOSE_BRACKET])))
            == TextOf(PairOf(raw, UNSPACED))
  {
    PairText(raw, UNSPACED);
    assert LexText(String(UNSPACED)) == [QUOTE, 0x61, QUOTE];
    StringText(raw, [Units.COMMA] + (LexText(String(UNSPACED)) + [CLOSE_BRACKET]));
  }

  /** Minifying keeps the meaning of a text with a string, whatever stands around it, exactly when that ends plainly. */
  lemma PlainIffAlike(raw: Text)
    requires IsBody(raw)
    ensures EndsPlainly(raw) <==> forall ps, qs :: AlikeAround(ps, Lex(String(raw)), qs)
  {
    hide IsBody, EndsPlainly, MinifiesAlike;
    var p := Lex(String(raw));
    if EndsPlainly(raw) {
      forall ps, qs
        ensures AlikeAround(ps, p, qs)
      {
        ClearAlike(ps, p, qs);
      }
    } else {
      OpenDiffers(raw);
      PairAround(raw);
      assert !AlikeAround([Lex(Sign(OPEN_BRACKET))], p, PairOf(raw, SPACED)[2..]);
    }
  }

  lemma SpacedBodies()
    ensures IsBody(SPACED) && IsBody(UNSPACED) && EndsPlainly(SPACED)
    ensures |Decoded(SPACED)| == 2 && |Decoded(UNSPACED)| == 1
  {
    assert SPACED[1..] == [SPACE] && [SPACE][1..] == [] && UNSPACED[1..] == [];
    assert IsBody([SPACE]) && |Decoded([SPACE])| == 1 && Decoded([]) == [];
  }

  lemma OpenDiffers(raw: Text)
    requires IsBody(raw) && !EndsPlainly(raw)
    ensures !MinifiesAlike(PairOf(raw, SPACED))
  {
    hide IsBody, EndsPlainly, Decoded, ReadJson, Minified;
    SpacedBodies();
    OpenRun(raw);
    ReadPair(raw, SPACED);
    ReadPair(raw, UNSPACED);
    assert Arr([Str(Decoded(raw)), Str(Decoded(SPACED))]).items[1] != Arr([Str(Decoded(raw)), Str(Decoded(UNSPACED))]).items[1];
  }

  /** A string that ends in a line separator behind a backslash: the space in the string behind it is lost. */
  lemma OpenStringDiffers()
    ensures var raw: Text := [BACKSLASH, 0x2028];
            && IsBody(raw)
            && ReadJson(TextOf(PairOf(raw, SPACED))) == Ok(Arr([Str(Decoded(raw)), Str(Decoded(SPACED))]))
            && ReadJson(Minified(TextOf(PairOf(raw, SPACED)))) == Ok(Arr([Str(Decoded(raw)), Str(Decoded(UNSPACED))]))
            && Decoded(SPACED) != Decoded(UNSPACED)
  {
    var raw: Text := [BACKSLASH, 0x2028];
    OpenBody(raw);
    SpacedBodies();
    OpenRun(raw);
    ReadPair(raw, SPACED);
    ReadPair(raw, UNSPACED);
  }

  lemma OpenBody(raw: Text)
    requires raw == [BACKSLASH, 0x2028]
    ensures IsBody(raw) && !EndsPlainly(raw)
  {
    assert raw[2..] == [] && raw[..1] == [BACKSLASH] && [BACKSLASH][..0] == [];
    assert Backslashes([]) == 0 && Backslashes([BACKSLASH]) == 1;
  }

  /** The layouts around the string. */
  lemma PairAround(raw: Text)
    requires IsBody(raw)
    ensures var ps, qs := [Lex(Sign(OPEN_BRACKET))], PairOf(raw, SPACED)[2..];
            && ArePieces(ps) && AllClear(ps) && ArePieces(qs) && AllClear(qs) && NumbersApart(Lexemes(ps + [Lex(String(raw))] + qs))
            && ps + [Lex(String(raw))] + qs == PairOf(raw, SPACED)
  {
    hide IsBody, EndsPlainly, ArePieces, AllClear, NumbersApart, Lexemes, IsClear, IsPiece;
    var all := PairOf(raw, SPACED);
    var p2 := [all[2], all[3], all[4]];
    assert all[2..] == p2 && [all[0]] + [Lex(String(raw))] + p2 == all;
    PairPieces();
    NoNumbers(all);
  }

  lemma PairPieces()
    ensures var ps, qs := [Lex(Sign(OPEN_BRACKET))], [Lex(COMMA_SIGN), Lex(String(SPACED)), Lex(Sign(CLOSE_BRACKET))];
            ArePieces(ps) && AllClear(ps) && ArePieces(qs) && AllClear(qs)
  {
    SpacedBodies();
    hide IsBody, EndsPlainly;
    var a, b, c, d: Piece := Lex(Sign(OPEN_BRACKET)), Lex(COMMA_SIGN), Lex(String(SPACED)), Lex(Sign(CLOSE_BRACKET));
    assert IsPiece(a) && IsPiece(b) && IsPiece(c) && IsPiece(d);
    LexIsClear(a);
    LexIsClear(b);
    LexIsClear(c);
    LexIsClear(d);
    hide IsPiece, IsClear;
    OnePiece(a);
    OnePiece(d);
    PiecesAppend([c], [d]);
    PiecesAppend([b], [c] + [d]);
    OnePiece(b);
    OnePiece(c);
    assert [b] + ([c] + [d]) == [b, c, d];
  }

  lemma {:induction false} NoNumbers(ps: seq<Piece>)
    requires forall i :: 0 <= i < |ps| ==> ps[i].Lex? && !ps[i].lexeme.Number?
    ensures NumbersApart(Lexemes(ps))
    ensures |Lexemes(ps)| == |ps| && forall i :: 0 <= i < |ps| ==> Lexemes(ps)[i] == ps[i].lexeme
  {
    if ps != [] {
      NoNumbers(ps[1..]);
      assert Lexemes(ps)[1..] == Lexemes(ps[1..]);
    }
  }
}
