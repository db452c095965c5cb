/** JSON texts laid out freely: lexemes with white space and comments between them. */
module Layout {
  import opened Units
  import opened Numbers
  import opened ReaderSpec
  import opened Minifier

  datatype Lexeme =
    | Sign(c: Unit)            // one of the six punctuation marks
    | Keyword(word: Text)      // true, false, null
    | Number(n: NumberText)
    | String(raw: Text)        // what stands between the quotes, escapes and all

  datatype Piece =
    | White(c: Unit)
    | Line(body: Text, crlf: bool)
    | Block(body: Text)
    | Lex(lexeme: Lexeme)

  const TRUE_WORD: Text := [0x74, 0x72, 0x75, 0x65]
  const FALSE_WORD: Text := [0x66, 0x61, 0x6C, 0x73, 0x65]
  const NULL_WORD: Text := [0x6E, 0x75, 0x6C, 0x6C]

  function LexText(l: Lexeme): Text {
    match l
    case Sign(c) => [c]
    case Keyword(word) => word
    case Number(n) => n.ToText()
    case String(raw) => [QUOTE] + (raw + [QUOTE])
  }

  function PieceText(p: Piece): Text {
    match p
    case White(c) => [c]
    case Line(body, crlf) => [SLASH, SLASH] + (body + if crlf then [RETURN, NEWLINE] else [NEWLINE])
    case Block(body) => [SLASH, STAR] + (body + [STAR, SLASH])
    case Lex(l) => LexText(l)
  }

  function TextOf(ps: seq<Piece>): Text {
    if ps == [] then [] else PieceText(ps[0]) + TextOf(ps[1..])
  }

  function Lexemes(ps: seq<Piece>): seq<Lexeme> {
    if ps == [] then []
    else (if ps[0].Lex? then [ps[0].lexeme] else []) + Lexemes(ps[1..])
  }

  // ---------------------------------------------------------------- which layouts are meant

  /**
   * String bodies with well formed escapes and no raw line feed or carriage return. A backslash may stand before any
   * unit but those two; behind `u` there are four hexadecimal digits.
   */
  predicate IsBody(raw: Text) {
    if raw == [] then true
    else if raw[0] == QUOTE || IsLineEnd(raw[0]) then false
    else if raw[0] != BACKSLASH then IsBody(raw[1..])
    else if |raw| == 1 || IsLineEnd(raw[1]) then false
    else if raw[1] != LOWER_U then IsBody(raw[2..])
    else |raw| >= 6 && IsHex(raw[2]) && IsHex(raw[3]) && IsHex(raw[4]) && IsHex(raw[5]) && IsBody(raw[6..])
  }

  predicate IsHex(c: Unit) {
    HexValue(c) >= 0
  }

  /** A string that ends with a Unicode line terminator has an even number of backslashes before it. */
  predicate EndsPlainly(raw: Text) {
    raw != [] && IsTerminator(raw[|raw| - 1]) ==> Backslashes(raw[..|raw| - 1]) % 2 == 0
  }

  /** The tokenizer passes over a comment body and then sees the end of the comment. */
  predicate TokenizerPasses(body: Text) {
    if body == [] then true
    else if StartsWithPair(body, STAR, SLASH) then false
    else if body == [SLASH] then false
    else if StartsWithPair(body, SLASH, STAR) || StartsWithPair(body, SLASH, SLASH) then TokenizerPasses(body[2..])
    else TokenizerPasses(body[1..])
  }

  predicate IsLineBody(body: Text) {
    forall i :: 0 <= i < |body| ==> !IsLineEnd(body[i])
  }

  predicate IsSignUnit(c: Unit) {
    c == OPEN_BRACE || c == CLOSE_BRACE || c == OPEN_BRACKET || c == CLOSE_BRACKET
    || c == Units.COLON || c == Units.COMMA
  }

  predicate IsLexeme(l: Lexeme) {
    match l
    case Sign(c) => IsSignUnit(c)
    case Keyword(word) => word == TRUE_WORD || word == FALSE_WORD || word == NULL_WORD
    case Number(n) => n.WellShaped()
    case String(raw) => IsBody(raw)
  }

  /** What the tokenizer of the minifier takes for what it is. */
  predicate IsPiece(p: Piece) {
    match p
    case White(c) => IsWhitespace(c)
    case Line(body, _) => IsLineBody(body)
    case Block(body) => TokenizerPasses(body)
    case Lex(l) => IsLexeme(l) && (l.String? ==> EndsPlainly(l.raw))
  }

  predicate ArePieces(ps: seq<Piece>) {
    ps != [] ==> IsPiece(ps[0]) && ArePieces(ps[1..])
  }

  predicate StartsWithDigitLexeme(ls: seq<Lexeme>) {
    ls != [] && ls[0].Number? && ls[0].n.sign == []
  }

  /** No number is followed at once by a number without sign: only a gap could keep the two apart. */
  predicate NumbersApart(ls: seq<Lexeme>) {
    ls != [] ==> !(ls[0].Number? && StartsWithDigitLexeme(ls[1..])) && NumbersApart(ls[1..])
  }

  // ---------------------------------------------------------------- basics

  lemma {:induction false} TextOfAppend(a: seq<Piece>, b: seq<Piece>)
    ensures TextOf(a + b) == TextOf(a) + TextOf(b)
  {
    if a == [] {
      assert a + b == b;
    } else {
      assert (a + b)[1..] == a[1..] + b;
      TextOfAppend(a[1..], b);
      Regrouped(PieceText(a[0]), TextOf(a[1..]), TextOf(b));
    }
  }

  lemma {:induction false} LexemesAppend(a: seq<Piece>, b: seq<Piece>)
    ensures Lexemes(a + b) == Lexemes(a) + Lexemes(b)
  {
    if a == [] {
      assert a + b == b;
    } else {
      assert (a + b)[1..] == a[1..] + b;
      LexemesAppend(a[1..], b);
      Regrouped(if a[0].Lex? then [a[0].lexeme] else [], Lexemes(a[1..]), Lexemes(b));
    }
  }

  lemma {:induction false} PiecesAppend(a: seq<Piece>, b: seq<Piece>)
    ensures ArePieces(a + b) <==> ArePieces(a) && ArePieces(b)
  {
    if a == [] {
      assert a + b == b;
    } else {
      assert (a + b)[1..] == a[1..] + b;
      PiecesAppend(a[1..], b);
    }
  }

  lemma OnePiece(p: Piece)
    ensures TextOf([p]) == PieceText(p)
    ensures Lexemes([p]) == if p.Lex? then [p.lexeme] else []
    ensures ArePieces([p]) <==> IsPiece(p)
  {
    var ps := [p];
    assert ps[1..] == [];
  }

  lemma Push(a: seq<Piece>, p: Piece)
    ensures TextOf(a + [p]) == TextOf(a) + PieceText(p)
    ensures Lexemes(a + [p]) == Lexemes(a) + Lexemes([p])
    ensures ArePieces(a + [p]) <==> ArePieces(a) && IsPiece(p)
  {
    TextOfAppend(a, [p]);
    LexemesAppend(a, [p]);
    PiecesAppend(a, [p]);
    OnePiece(p);
  }
}
