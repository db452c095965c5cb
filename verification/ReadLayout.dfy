/** The reader does not see the gaps of a layout, and so it does not see what the minifier does. */
module ReadLayout {
  import opened Units
  import opened JsonValues
  import opened Numbers
  import opened ReaderSpec
  import opened Minifier
  import opened Layout
  import opened MinifyLayout
  import opened Comments

  // ---------------------------------------------------------------- gaps

  lemma SkipGap(p: Piece, rest: Text)
    requires IsClear(p) && !p.Lex?
    ensures SkipWhiteSpace(PieceText(p) + rest) == SkipWhiteSpace(rest)
  {
    if p.White? {
      assert ([p.c] + rest)[1..] == rest;
    } else {
      CommentFinds(p, rest);
    }
  }

  /** The pieces from the first lexeme on. */
  function Drop(ps: seq<Piece>): (r: seq<Piece>)
    ensures Lexemes(r) == Lexemes(ps)
    ensures ArePieces(ps) ==> ArePieces(r)
    ensures AllClear(ps) ==> AllClear(r)
    ensures r != [] ==> r[0].Lex?
    ensures r == [] <==> Lexemes(ps) == []
  {
    if ps == [] || ps[0].Lex? then ps else Drop(ps[1..])
  }

  lemma LexemeStarts(l: Lexeme, rest: Text)
    requires IsLexeme(l)
    ensures LexText(l) != [] && LexText(l) + rest != [] && (LexText(l) + rest)[0] == LexText(l)[0]
    ensures var c := LexText(l)[0];
            !IsWhitespace(c) && c != SLASH
            && (l.Number? ==> IsDigit(c) || c == MINUS)
            && (!(l.Number? && l.n.sign == []) ==> !IsDigit(c) && c != DOT && !IsExponentMark(c))
  {
    if l.Number? {
      SignOf(l.n, l.n.whole + (l.n.fraction + l.n.exponent));
      if IsWhitespace(LexText(l)[0]) {
        WhitespaceIsNoDigit(LexText(l)[0]);
      }
    }
  }

  lemma FirstIsLexeme(ps: seq<Piece>)
    requires ps != [] && ps[0].Lex? && AllClear(ps)
    ensures IsLexeme(ps[0].lexeme)
  {
    hide IsLexeme;
    assert IsClear(ps[0]);
  }

  /** The text of a layout with `t` behind it. */
  function Onto(ps: seq<Piece>, t: Text): Text {
    if ps == [] then t else PieceText(ps[0]) + Onto(ps[1..], t)
  }

  lemma {:induction false} OntoIs(ps: seq<Piece>, t: Text)
    ensures Onto(ps, t) == TextOf(ps) + t
  {
    if ps == [] {
      assert [] + t == t;
    } else {
      OntoIs(ps[1..], t);
      Regrouped(PieceText(ps[0]), TextOf(ps[1..]), t);
    }
  }

  /** Nothing, or a number that cannot be read. */
  predicate IsRefused(t: Text) {
    t != [] ==> StartsNumber(t) && NumberOf(ScanNumber(t).0) == Err(NumberFormat)
  }

  lemma NumberStarts(t: Text)
    requires StartsNumber(t)
    ensures !IsWhitespace(t[0]) && t[0] != SLASH
    ensures ReadToken(t) ==
      if ReadNumber(t).Ok? then Ok((Value(ReadNumber(t).value.0), ReadNumber(t).value.1)) else Err(ReadNumber(t).error)
  {
    var c := t[0];
    if IsWhitespace(c) {
      WhitespaceIsNoDigit(c);
    }
    assert c != QUOTE && c != OPEN_BRACKET && c != OPEN_BRACE && c != CLOSE_BRACKET && c != CLOSE_BRACE;
    assert c != Units.COMMA && c != Units.COLON && c != SLASH && c != 0x74 && c != 0x66 && c != 0x6E;
    hide IsDigit, IsWhitespace;
  }

  lemma RefusedIsRead(t: Text)
    requires IsRefused(t)
    ensures SkipWhiteSpace(t) == Ok(t)
    ensures Read(t) == if t == [] then Read([]) else Err(NumberFormat)
    ensures Read(t).Err?
  {
    hide ReadToken;
    if t != [] {
      NumberStarts(t);
    }
  }

  lemma {:induction false} SkipGaps(ps: seq<Piece>, t: Text)
    requires AllClear(ps) && IsRefused(t)
    ensures SkipWhiteSpace(Onto(ps, t)) == Ok(Onto(Drop(ps), t))
  {
    if ps == [] {
      RefusedIsRead(t);
    } else if ps[0].Lex? {
      LexemeStarts(ps[0].lexeme, Onto(ps[1..], t));
    } else {
      SkipGap(ps[0], Onto(ps[1..], t));
      SkipGaps(ps[1..], t);
    }
  }

  // ---------------------------------------------------------------- lexemes

  /** The text a string body stands for. */
  function Decoded(raw: Text): Text
    requires IsBody(raw)
  {
    if raw == [] then []
    else
      var n := UnitLength(raw);
      [if n == 1 then raw[0] else if n == 2 then EscapeMeaning(raw[1]) else HexUnit(raw[2..])] + Decoded(raw[n..])
  }

  lemma {:induction false} ReadBody(raw: Text, rest: Text)
    requires IsBody(raw)
    ensures ReadString(raw + ([QUOTE] + rest)) == Ok((Decoded(raw), rest))
    decreases |raw|
  {
    var s := raw + ([QUOTE] + rest);
    if raw == [] {
      assert s == [QUOTE] + rest && s[1..] == rest;
    } else {
      var n := UnitLength(raw);
      assert s[n..] == raw[n..] + ([QUOTE] + rest);
      assert s[0] == raw[0] && (|raw| > 1 ==> s[1] == raw[1]);
      ReadBody(raw[n..], rest);
    }
  }

  /** The token a lexeme stands for, unless it opens an array or an object. */
  function LexToken(l: Lexeme): Result<Token>
    requires IsLexeme(l) && l != Sign(OPEN_BRACKET) && l != Sign(OPEN_BRACE)
  {
    match l
    case Sign(c) =>
      Ok(Punctuation(if c == CLOSE_BRACKET then ArrayEnd else if c == CLOSE_BRACE then ObjectEnd
                     else if c == Units.COMMA then ReaderSpec.Comma else ReaderSpec.Colon))
    case Keyword(word) => Ok(Value(if word == NULL_WORD then Null else Bool(word == TRUE_WORD)))
    case Number(n) => if NumberOf(n).Ok? then Ok(Value(NumberOf(n).value)) else Err(NumberOf(n).error)
    case String(raw) => Ok(Value(Str(Decoded(raw))))
  }

  lemma ReadKeywordLexeme(word: Text, rest: Text)
    requires IsLexeme(Keyword(word))
    ensures ReadToken(word + rest) == Ok((LexToken(Keyword(word)).value, rest))
  {
    var s := word + rest;
    var tail := word[1..];
    assert s[1..] == tail + rest;
    assert (tail + rest)[|tail|..] == rest;
    assert tail == if word == TRUE_WORD then TRUE_TAIL else if word == FALSE_WORD then FALSE_TAIL else NULL_TAIL;
  }

  lemma ReadNumberLexeme(n: NumberText, rest: Text)
    requires n.WellShaped() && EndsNumber(rest)
    ensures ReadToken(n.ToText() + rest) ==
      if NumberOf(n).Ok? then Ok((Value(NumberOf(n).value), rest)) else Err(NumberOf(n).error)
  {
    ScanComplete(n, rest);
    LexemeStarts(Number(n), rest);
    var c := n.ToText()[0];
    assert c != QUOTE && c != OPEN_BRACKET && c != OPEN_BRACE && c != CLOSE_BRACKET && c != CLOSE_BRACE;
  }

  lemma ReadLexeme(l: Lexeme, rest: Text)
    requires IsLexeme(l) && l != Sign(OPEN_BRACKET) && l != Sign(OPEN_BRACE)
    requires l.Number? ==> EndsNumber(rest)
    ensures LexText(l) + rest != []
    ensures ReadToken(LexText(l) + rest) ==
      if LexToken(l).Ok? then Ok((LexToken(l).value, rest)) else Err(LexToken(l).error)
  {
    LexemeStarts(l, rest);
    match l {
      case Sign(c) =>
        assert ([c] + rest)[1..] == rest;
      case Keyword(word) =>
        ReadKeywordLexeme(word, rest);
      case Number(n) =>
        ReadNumberLexeme(n, rest);
      case String(raw) =>
        var s := LexText(l) + rest;
        assert s[1..] == raw + ([QUOTE] + rest);
        ReadBody(raw, rest);
    }
  }

  // ---------------------------------------------------------------- two layouts of the same lexemes

  /** The last of the lexemes is not continued by `t`. */
  predicate Parted(ls: seq<Lexeme>, t: Text) {
    ls != [] && ls[|ls| - 1].Number? ==> !StartsWithDigit(t)
  }

  ghost predicate Twins(ps: seq<Piece>, t: Text, qs: seq<Piece>, u: Text) {
    && AllClear(ps) && AllClear(qs) && Lexemes(ps) == Lexemes(qs) && NumbersApart(Lexemes(ps))
    && IsRefused(t) && IsRefused(u) && (t == [] <==> u == []) && Parted(Lexemes(ps), t) && Parted(Lexemes(ps), u)
  }

  /** Two readings fail alike, or give the same and stop before twin layouts with fewer lexemes than `bound`. */
  ghost predicate ReadAlike<T(!new)>(r: Result<(T, Text)>, s: Result<(T, Text)>, ps: seq<Piece>, t: Text, qs: seq<Piece>,
      u: Text, bound: nat) {
    if r.Err? then s == r
    else
      && s.Ok? && r.value.0 == s.value.0
      && r.value.1 == Onto(ps, t) && s.value.1 == Onto(qs, u)
      && Twins(ps, t, qs, u) && |Lexemes(ps)| < bound
  }

  /** What stands behind a lexeme does not continue it. */
  lemma BehindLexeme(ps: seq<Piece>, l: Lexeme, t: Text)
    requires AllClear(ps) && NumbersApart([l] + Lexemes(ps)) && l.Number? && IsRefused(t) && Parted([l] + Lexemes(ps), t)
    ensures EndsNumber(Onto(ps, t))
  {
    if ps != [] {
      var p := ps[0];
      var rest := Onto(ps[1..], t);
      assert ([l] + Lexemes(ps))[1..] == Lexemes(ps);
      match p {
        case White(c) => WhitespaceIsNoDigit(c);
        case Line(_, _) =>
        case Block(_) =>
        case Lex(m) =>
          LexemeStarts(m, rest);
          assert Lexemes(ps)[0] == m;
      }
    } else {
      assert [l] + [] == [l];
    }
  }

  lemma StillParted(l: Lexeme, ls: seq<Lexeme>, t: Text)
    requires Parted([l] + ls, t)
    ensures Parted(ls, t)
  {
    if ls != [] {
      assert ([l] + ls)[|ls|] == ls[|ls| - 1];
    }
  }

  lemma SimRead(ps: seq<Piece>, t: Text, qs: seq<Piece>, u: Text) returns (ps': seq<Piece>, qs': seq<Piece>)
    requires Twins(ps, t, qs, u)
    ensures ReadAlike(Read(Onto(ps, t)), Read(Onto(qs, u)), ps', t, qs', u, |Lexemes(ps)|)
    decreases |Lexemes(ps)|, 1
  {
    hide IsClear, ReadToken, SkipWhiteSpace, IsRefused, Parted, NumbersApart;
    SkipGaps(ps, t);
    SkipGaps(qs, u);
    ps', qs' := Drop(ps), Drop(qs);
    if ps' == [] {
      RefusedIsRead(t);
      RefusedIsRead(u);
    } else {
      FirstIsLexeme(ps');
      var l := ps'[0].lexeme;
      assert Lexemes(ps')[0] == l && Lexemes(qs') == Lexemes(ps');
      assert qs' != [] && Lexemes(qs')[0] == qs'[0].lexeme;
      LexemeStarts(l, Onto(ps'[1..], t));
      LexemeStarts(l, Onto(qs'[1..], u));
      ps', qs' := SimToken(l, ps', t, qs', u);
    }
  }

  lemma SimToken(l: Lexeme, ps: seq<Piece>, t: Text, qs: seq<Piece>, u: Text) returns (ps': seq<Piece>, qs': seq<Piece>)
    requires ps != [] && qs != [] && ps[0] == qs[0] == Lex(l) && Twins(ps, t, qs, u)
    ensures Onto(ps, t) != [] && Onto(qs, u) != []
    ensures ReadAlike(ReadToken(Onto(ps, t)), ReadToken(Onto(qs, u)), ps', t, qs', u, |Lexemes(ps)|)
    decreases |Lexemes(ps)|, 0
  {
    hide IsClear, IsRefused, Parted;
    FirstIsLexeme(ps);
    ps', qs' := ps[1..], qs[1..];
    assert Lexemes(ps) == [l] + Lexemes(ps') && Lexemes(ps)[1..] == Lexemes(ps');
    StillParted(l, Lexemes(ps'), t);
    StillParted(l, Lexemes(ps'), u);
    LexemeStarts(l, Onto(ps', t));
    LexemeStarts(l, Onto(qs', u));
    if l == Sign(OPEN_BRACKET) {
      assert ([OPEN_BRACKET] + Onto(ps', t))[1..] == Onto(ps', t);
      assert ([OPEN_BRACKET] + Onto(qs', u))[1..] == Onto(qs', u);
      ps', qs' := SimArray(ps', t, qs', u);
    } else if l == Sign(OPEN_BRACE) {
      assert ([OPEN_BRACE] + Onto(ps', t))[1..] == Onto(ps', t);
      assert ([OPEN_BRACE] + Onto(qs', u))[1..] == Onto(qs', u);
      ps', qs' := SimObject(ps', t, qs', u);
    } else {
      hide ReadToken, LexText;
      SimScalar(l, ps', t, qs', u);
    }
  }

  /** A token that holds no others. */
  lemma SimScalar(l: Lexeme, ps: seq<Piece>, t: Text, qs: seq<Piece>, u: Text)
    requires IsLexeme(l) && l != Sign(OPEN_BRACKET) && l != Sign(OPEN_BRACE)
    requires AllClear(ps) && AllClear(qs) && Lexemes(ps) == Lexemes(qs) && NumbersApart([l] + Lexemes(ps))
    requires IsRefused(t) && IsRefused(u) && Parted([l] + Lexemes(ps), t) && Parted([l] + Lexemes(ps), u)
    ensures LexText(l) + Onto(ps, t) != [] && LexText(l) + Onto(qs, u) != []
    ensures var r, s := ReadToken(LexText(l) + Onto(ps, t)), ReadToken(LexText(l) + Onto(qs, u));
            if r.Err? then s == r else s.Ok? && r.value.0 == s.value.0 && r.value.1 == Onto(ps, t) && s.value.1 == Onto(qs, u)
  {
    hide ReadToken, LexText, LexToken, IsRefused, Parted;
    if l.Number? {
      BehindLexeme(ps, l, t);
      BehindLexeme(qs, l, u);
    }
    ReadLexeme(l, Onto(ps, t));
    ReadLexeme(l, Onto(qs, u));
  }

  lemma SimArray(ps: seq<Piece>, t: Text, qs: seq<Piece>, u: Text) returns (ps': seq<Piece>, qs': seq<Piece>)
    requires Twins(ps, t, qs, u)
    ensures ReadAlike(ReadArray(Onto(ps, t)), ReadArray(Onto(qs, u)), ps', t, qs', u, |Lexemes(ps)|)
    decreases |Lexemes(ps)|, 3
  {
    hide Twins, Lexemes, Onto, Read;
    ps', qs' := SimRead(ps, t, qs, u);
    var r := Read(Onto(ps, t));
    if r.Ok? && r.value.0 != Punctuation(ArrayEnd) {
      ps', qs' := SimItems(r.value.0, ps', t, qs', u);
    }
  }

  lemma SimItems(first: Token, ps: seq<Piece>, t: Text, qs: seq<Piece>, u: Text) returns (ps': seq<Piece>, qs': seq<Piece>)
    requires Twins(ps, t, qs, u)
    ensures ReadAlike(ReadItems(first, Onto(ps, t)), ReadItems(first, Onto(qs, u)), ps', t, qs', u, |Lexemes(ps)|)
    decreases |Lexemes(ps)|, 2
  {
    hide Twins, Lexemes, Onto, Read;
    ps', qs' := ps, qs;
    if first.Value? {
      ps', qs' := SimRead(ps, t, qs, u);
      var r := Read(Onto(ps, t));
      if r.Ok? && r.value.0 == Punctuation(ReaderSpec.Comma) {
        var r2 := Read(Onto(ps', t));
        ps', qs' := SimRead(ps', t, qs', u);
        if r2.Ok? {
          ps', qs' := SimItems(r2.value.0, ps', t, qs', u);
        }
      }
    }
  }

  lemma SimObject(ps: seq<Piece>, t: Text, qs: seq<Piece>, u: Text) returns (ps': seq<Piece>, qs': seq<Piece>)
    requires Twins(ps, t, qs, u)
    ensures ReadAlike(ReadObject(Onto(ps, t)), ReadObject(Onto(qs, u)), ps', t, qs', u, |Lexemes(ps)|)
    decreases |Lexemes(ps)|, 3
  {
    hide Twins, Lexemes, Onto, Read;
    ps', qs' := SimRead(ps, t, qs, u);
    var r := Read(Onto(ps, t));
    if r.Ok? && r.value.0 != Punctuation(ObjectEnd) && KeyOf(r.value.0).Ok? {
      ps', qs' := SimMembers(map[], KeyOf(r.value.0).value, ps', t, qs', u);
    }
  }

  lemma SimMembers(fields: map<Text, Json>, key: Text, ps: seq<Piece>, t: Text, qs: seq<Piece>, u: Text)
    returns (ps': seq<Piece>, qs': seq<Piece>)
    requires Twins(ps, t, qs, u)
    ensures ReadAlike(ReadMembers(fields, key, Onto(ps, t)), ReadMembers(fields, key, Onto(qs, u)), ps', t, qs', u, |Lexemes(ps)|)
    decreases |Lexemes(ps)|, 2
  {
    hide Twins, Lexemes, Onto, Read;
    ps', qs' := SimRead(ps, t, qs, u);
    var colon := Read(Onto(ps, t));
    if colon.Ok? && colon.value.0 == Punctuation(ReaderSpec.Colon) {
      var value := Read(Onto(ps', t));
      ps', qs' := SimRead(ps', t, qs', u);
      if value.Ok? && value.value.0.Value? {
        ps', qs' := SimMoreMembers(fields[key := value.value.0.json], ps', t, qs', u);
      }
    }
  }

  lemma SimMoreMembers(fields: map<Text, Json>, ps: seq<Piece>, t: Text, qs: seq<Piece>, u: Text)
    returns (ps': seq<Piece>, qs': seq<Piece>)
    requires Twins(ps, t, qs, u)
    ensures ReadAlike(ReadMoreMembers(fields, Onto(ps, t)), ReadMoreMembers(fields, Onto(qs, u)), ps', t, qs', u, |Lexemes(ps)|)
    decreases |Lexemes(ps)|, 2
  {
    hide Twins, Lexemes, Onto, Read;
    ps', qs' := SimRead(ps, t, qs, u);
    var separator := Read(Onto(ps, t));
    if separator.Ok? && separator.value.0 == Punctuation(ReaderSpec.Comma) {
      var next := Read(Onto(ps', t));
      ps', qs' := SimRead(ps', t, qs', u);
      if next.Ok? && KeyOf(next.value.0).Ok? && !IsPunctuation(KeyOf(next.value.0).value) {
        ps', qs' := SimMembers(fields, KeyOf(next.value.0).value, ps', t, qs', u);
      }
    }
  }

  // ---------------------------------------------------------------- results

  /** The reader is blind to the gaps: two layouts of the same lexemes read alike, failures included. */
  lemma GapsDoNotMatter(ps: seq<Piece>, qs: seq<Piece>)
    requires AllClear(ps) && AllClear(qs)
    requires Lexemes(ps) == Lexemes(qs) && NumbersApart(Lexemes(ps))
    ensures ReadJson(TextOf(ps)) == ReadJson(TextOf(qs))
  {
    OntoIs(ps, []);
    OntoIs(qs, []);
    assert TextOf(ps) + [] == TextOf(ps) && TextOf(qs) + [] == TextOf(qs);
    var ps', qs' := SimRead(ps, [], qs, []);
  }

  /** Nor do they matter before a number that cannot be read, whichever that is and whatever stands behind it. */
  lemma RefusedAlike(ps: seq<Piece>, t: Text, qs: seq<Piece>, u: Text)
    requires Twins(ps, t, qs, u)
    ensures ReadJson(TextOf(ps) + t) == ReadJson(TextOf(qs) + u)
  {
    OntoIs(ps, t);
    OntoIs(qs, u);
    var ps', qs' := SimRead(ps, t, qs, u);
  }

  predicate MinifiesAlike(ps: seq<Piece>) {
    ReadJson(Minified(TextOf(ps))) == ReadJson(TextOf(ps))
  }

  /** The minified text holds no comment, so it reads as any clear layout of the same lexemes does. */
  lemma MinifiedReads(ps: seq<Piece>, qs: seq<Piece>)
    requires ArePieces(ps) && NumbersApart(Lexemes(ps))
    requires AllClear(qs) && Lexemes(qs) == Lexemes(ps)
    ensures ReadJson(Minified(TextOf(ps))) == ReadJson(TextOf(qs))
  {
    MinifiedPieces(ps);
    CompactLexemes([], ps);
    CompactClear([], ps);
    assert [] + Lexemes(ps) == Lexemes(ps);
    GapsDoNotMatter(Compact([], ps), qs);
  }

  lemma {:induction false} CompactClear(pending: seq<Piece>, ps: seq<Piece>)
    requires AreQuiet(pending) && ArePieces(pending) && ArePieces(ps)
    ensures AllClear(Compact(pending, ps))
    decreases |ps|
  {
    hide IsClear;
    if ps == [] {
      QuietIsClear(pending);
    } else if IsQuietPiece(ps[0]) {
      Push(pending, ps[0]);
      CompactClear(pending + [ps[0]], ps[1..]);
    } else {
      CompactClear([], ps[1..]);
      KeepClear(pending);
      LexIsClear(ps[0]);
    }
  }

  lemma {:induction false} QuietIsClear(ps: seq<Piece>)
    requires AreQuiet(ps) && ArePieces(ps)
    ensures AllClear(ps)
  {
    if ps != [] {
      assert IsQuietPiece(ps[0]);
      QuietIsClear(ps[1..]);
      assert ps == [ps[0]] + ps[1..];
    }
  }

  lemma LexIsClear(p: Piece)
    ensures p.Lex? && IsPiece(p) ==> IsClear(p)
  {
  }

  lemma {:induction false} KeepClear(ps: seq<Piece>)
    requires AreQuiet(ps) && ArePieces(ps)
    ensures AllClear(Keep(ps))
  {
    if ps != [] {
      assert IsQuietPiece(ps[0]);
      KeepClear(ps[1..]);
    }
  }

  /** The main result: a text and its minified form are read as the same value, or fail with the same error. */
  lemma MinifyKeepsMeaning(ps: seq<Piece>)
    requires ArePieces(ps) && AllClear(ps) && NumbersApart(Lexemes(ps))
    ensures MinifiesAlike(ps)
  {
    MinifiedReads(ps, ps);
  }
}
