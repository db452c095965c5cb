/** What `minify` does to a text laid out freely. */
module MinifyLayout {
  import opened Units
  import opened Numbers
  import opened Minifier
  import opened Layout

  /** White space on the line and lexemes other than strings: the pieces no token of the minifier lies in. */
  predicate IsQuietPiece(p: Piece) {
    match p
    case White(c) => !IsLineEnd(c)
    case Lex(l) => !l.String?
    case _ => false
  }

  predicate AreQuiet(ps: seq<Piece>) {
    forall i :: 0 <= i < |ps| ==> IsQuietPiece(ps[i])
  }

  function Keep(ps: seq<Piece>): seq<Piece> {
    if ps == [] then []
    else (if ps[0].White? && IsStripped(ps[0].c) then [] else [ps[0]]) + Keep(ps[1..])
  }

  /**
   * The pieces that are left: `pending` holds those since the last token. Comments and stripped white space go, but for
   * what follows the last token of the text.
   */
  function Compact(pending: seq<Piece>, ps: seq<Piece>): seq<Piece>
    decreases |ps|
  {
    if ps == [] then pending
    else if IsQuietPiece(ps[0]) then Compact(pending + [ps[0]], ps[1..])
    else if ps[0].Lex? then Keep(pending) + ([ps[0]] + Compact([], ps[1..]))
    else Keep(pending) + Compact([], ps[1..])
  }

  // ---------------------------------------------------------------- the run over one piece

  predicate IsQuietText(w: Text) {
    forall i :: 0 <= i < |w| ==> w[i] != QUOTE && !IsLineEnd(w[i]) && w[i] != SLASH && w[i] != STAR
  }

  lemma {:induction false} QuietRun(before: Text, segment: Text, w: Text, rest: Text, mode: Mode)
    requires IsQuietText(w)
    ensures Run(before, segment, w + rest, mode) == Run(before + w, segment + w, rest, mode)
    decreases |w|
  {
    if w == [] {
      assert w + rest == rest && before + w == before && segment + w == segment;
    } else {
      assert (w + rest)[1..] == w[1..] + rest;
      QuietRun(before + [w[0]], segment + [w[0]], w[1..], rest, mode);
      assert before + [w[0]] + w[1..] == before + w;
      assert segment + [w[0]] + w[1..] == segment + w;
    }
  }

  lemma Cut(before: Text, body: Text, n: nat, tail: Text)
    requires n <= |body|
    ensures body + tail == body[..n] + (body[n..] + tail)
    ensures before + body[..n] + body[n..] == before + body
  {
  }

  lemma {:induction false} LineRun(before: Text, segment: Text, body: Text, c: Unit, rest: Text)
    requires IsLineBody(body) && IsLineEnd(c)
    ensures Run(before, segment, body + ([c] + rest), InLine) == Run(before + body + [c], [], rest, Plain)
    decreases |body|
  {
    hide Run;
    var s := body + ([c] + rest);
    if body == [] {
      assert s == [c] + rest && before + body == before;
      RunStep(before, segment, [c], rest, InLine);
    } else {
      var n := StepLength(s);
      assert |body| == 1 ==> s[1] == c;
      Cut(before, body, n, [c] + rest);
      RunStep(before, segment, body[..n], body[n..] + ([c] + rest), InLine);
      LineRun(before + body[..n], if TokenLength(s) == 0 then segment + body[..n] else [], body[n..], c, rest);
    }
  }

  lemma {:induction false} BlockRun(before: Text, segment: Text, body: Text, rest: Text)
    requires TokenizerPasses(body)
    ensures Run(before, segment, body + ([STAR, SLASH] + rest), InBlock) ==
            Run(before + body + [STAR, SLASH], [], rest, Plain)
    decreases |body|
  {
    hide Run;
    var s := body + ([STAR, SLASH] + rest);
    if body == [] {
      assert s == [STAR, SLASH] + rest && before + body == before;
      RunStep(before, segment, [STAR, SLASH], rest, InBlock);
    } else {
      var n := StepLength(s);
      assert |body| == 1 ==> s[1] == STAR;
      assert |body| >= 2 ==> s[1] == body[1];
      Cut(before, body, n, [STAR, SLASH] + rest);
      assert TokenizerPasses(body[n..]);
      RunStep(before, segment, body[..n], body[n..] + ([STAR, SLASH] + rest), InBlock);
      BlockRun(before + body[..n], if TokenLength(s) == 0 then segment + body[..n] else [], body[n..], rest);
    }
  }

  /** Every quote in `raw` has an odd run of backslashes before it. */
  ghost predicate QuotesEscaped(before: Text, raw: Text)
    decreases |raw|
  {
    raw != [] ==>
      && !IsLineEnd(raw[0])
      && (raw[0] == QUOTE ==> MagicLength(before) % 2 == 1)
      && QuotesEscaped(before + [raw[0]], raw[1..])
  }

  lemma {:induction false} QuotesEscapedBehind(before: Text, w: Text, rest: Text)
    requires forall i :: 0 <= i < |w| ==> w[i] != QUOTE && !IsLineEnd(w[i])
    ensures QuotesEscaped(before, w + rest) <==> QuotesEscaped(before + w, rest)
    decreases |w|
  {
    if w == [] {
      assert w + rest == rest && before + w == before;
    } else {
      assert (w + rest)[1..] == w[1..] + rest;
      assert before + [w[0]] + w[1..] == before + w;
      QuotesEscapedBehind(before + [w[0]], w[1..], rest);
    }
  }

  /** Where the next segment starts and what is written, after one step inside a string. */
  lemma StringStep(before: Text, segment: Text, head: Text, rest: Text)
    requires head != [] && |head| == StepLength(head + rest) && !IsLineEnd(head[0])
    requires head[0] == QUOTE ==> MagicLength(before) % 2 == 1
    ensures Run(before, segment, head + rest, InString) ==
      if TokenLength(head + rest) == 0 then Run(before + head, segment + head, rest, InString)
      else if head[0] == QUOTE then segment + Run(before + head, head, rest, InString)
      else segment + head + Run(before + head, [], rest, InString)
  {
    hide Run;
    RunStep(before, segment, head, rest, InString);
    assert segment + [] == segment;
  }

  /** The mode behind the quote that should close a string. */
  function BehindQuote(lc: Text): (mode: Mode)
    ensures mode == Plain || mode == InString
  {
    if MagicLength(lc) % 2 == 0 then Plain else InString
  }

  lemma {:induction false} StringRun(before: Text, segment: Text, raw: Text, rest: Text)
    requires QuotesEscaped(before, raw)
    ensures Run(before, segment, raw + ([QUOTE] + rest), InString) ==
            segment + raw + Run(before + raw + [QUOTE], [QUOTE], rest, BehindQuote(before + raw))
    decreases |raw|
  {
    hide Run, QuotesEscaped, MagicLength;
    var s := raw + ([QUOTE] + rest);
    if raw == [] {
      assert s == [QUOTE] + rest && before + raw == before && segment + raw == segment;
      RunStep(before, segment, [QUOTE], rest, InString);
      assert segment + [] == segment;
    } else {
      var n := StepLength(s);
      var head, tail := raw[..n], raw[n..];
      assert |raw| == 1 ==> s[1] == QUOTE;
      assert |raw| >= 2 ==> s[1] == raw[1];
      Cut(before, raw, n, [QUOTE] + rest);
      StepInside(before, raw, n);
      StringStep(before, segment, head, tail + ([QUOTE] + rest));
      var segment' := if TokenLength(s) == 0 then segment + head else if head[0] == QUOTE then head else [];
      StringRun(before + head, segment', tail, rest);
      Sums(segment, head, tail, Run(before + raw + [QUOTE], [QUOTE], rest, BehindQuote(before + raw)));
      assert raw == head + tail && before + head + tail == before + raw;
    }
  }

  lemma StepInside(before: Text, raw: Text, n: nat)
    requires 1 <= n <= 2 && n <= |raw| && QuotesEscaped(before, raw)
    ensures QuotesEscaped(before + raw[..n], raw[n..])
    ensures !IsLineEnd(raw[0]) && (raw[0] == QUOTE ==> MagicLength(before) % 2 == 1)
  {
    hide MagicLength;
    assert raw[..1] == [raw[0]];
    if n == 2 {
      assert before + [raw[0]] + [raw[1]] == before + raw[..2];
      assert raw[1..][1..] == raw[2..];
    }
  }

  lemma Sums(a: Text, b: Text, c: Text, d: Text)
    ensures a + b + c + d == a + (b + c) + d
    ensures a + (b + c + d) == a + (b + c) + d
    ensures a + b + ([] + c + d) == a + (b + c) + d
  {
  }

  // ---------------------------------------------------------------- the parity of backslashes

  lemma BackslashesPush(s: Text, c: Unit)
    ensures Backslashes(s + [c]) == if c == BACKSLASH then Backslashes(s) + 1 else 0
  {
    assert (s + [c])[..|s|] == s;
  }

  lemma {:induction false} BackslashesBehindQuote(before: Text, s: Text)
    ensures Backslashes(before + [QUOTE] + s) == Backslashes(s)
    decreases |s|
  {
    if s == [] {
      assert before + [QUOTE] + s == before + [QUOTE];
      BackslashesPush(before, QUOTE);
    } else {
      var t := s[..|s| - 1];
      assert before + [QUOTE] + s == before + [QUOTE] + t + [s[|s| - 1]];
      assert s == t + [s[|s| - 1]];
      BackslashesBehindQuote(before, t);
      BackslashesPush(before + [QUOTE] + t, s[|s| - 1]);
      BackslashesPush(t, s[|s| - 1]);
    }
  }

  /** The length of the plain unit or the escape `raw` starts with. */
  function UnitLength(raw: Text): (n: nat)
    requires raw != [] && IsBody(raw)
    ensures 1 <= n <= |raw| && IsBody(raw[n..])
  {
    if raw[0] != BACKSLASH then 1 else if raw[1] != LOWER_U then 2 else 6
  }

  /** The forward scan of escapes and the backward count of backslashes agree on where a string ends. */
  lemma {:induction false} BodyIsEscaped(before: Text, raw: Text)
    requires IsBody(raw) && Backslashes(before) % 2 == 0
    ensures QuotesEscaped(before, raw)
    ensures Backslashes(before + raw) % 2 == 0
    decreases |raw|
  {
    if raw == [] {
      assert before + raw == before;
    } else {
      var n := UnitLength(raw);
      UnitIsEven(before, raw);
      BodyIsEscaped(before + raw[..n], raw[n..]);
      UnitIsEscaped(before, raw);
      Cut(before, raw, n, []);
    }
  }

  lemma UnitIsEven(before: Text, raw: Text)
    requires raw != [] && IsBody(raw) && Backslashes(before) % 2 == 0
    ensures Backslashes(before + raw[..UnitLength(raw)]) % 2 == 0
  {
    var n := UnitLength(raw);
    LastOfUnit(raw);
    hide IsBody, UnitLength, Backslashes;
    if n == 2 {
      assert raw[..2] == [BACKSLASH, raw[1]];
      EscapeIsEven(before, raw[1]);
    } else {
      BackslashesPush(before + raw[..n - 1], raw[n - 1]);
      assert before + raw[..n - 1] + [raw[n - 1]] == before + raw[..n];
    }
  }

  /** A unit is an escape of two, or does not end in a backslash. */
  lemma LastOfUnit(raw: Text)
    requires raw != [] && IsBody(raw)
    ensures var n := UnitLength(raw);
            if n == 2 then raw[0] == BACKSLASH else raw[n - 1] != BACKSLASH
  {
  }

  lemma UnitIsEscaped(before: Text, raw: Text)
    requires raw != [] && IsBody(raw) && Backslashes(before) % 2 == 0
    requires QuotesEscaped(before + raw[..UnitLength(raw)], raw[UnitLength(raw)..])
    ensures QuotesEscaped(before, raw)
  {
    var n := UnitLength(raw);
    var head := raw[..n];
    assert raw == head + raw[n..];
    if n == 2 {
      assert head == [BACKSLASH, raw[1]];
      EscapeIsEscaped(before, raw[1], raw[n..]);
    } else {
      QuotesEscapedBehind(before, head, raw[n..]);
    }
  }

  lemma EscapeIsEven(before: Text, c: Unit)
    requires Backslashes(before) % 2 == 0
    ensures Backslashes(before + [BACKSLASH, c]) % 2 == 0
    ensures MagicLength(before + [BACKSLASH]) % 2 == 1
  {
    hide Backslashes, MagicLength;
    BackslashesPush(before, BACKSLASH);
    BackslashesPush(before + [BACKSLASH], c);
    assert before + [BACKSLASH] + [c] == before + [BACKSLASH, c];
    MagicAtBackslash(before);
  }

  lemma MagicAtBackslash(before: Text)
    ensures MagicLength(before + [BACKSLASH]) == Backslashes(before + [BACKSLASH])
  {
    hide Backslashes;
    var t := before + [BACKSLASH];
    assert t[|t| - 1] == BACKSLASH;
  }

  lemma QuotesEscapedPush(before: Text, c: Unit, rest: Text)
    requires !IsLineEnd(c) && (c == QUOTE ==> MagicLength(before) % 2 == 1)
    requires QuotesEscaped(before + [c], rest)
    ensures QuotesEscaped(before, [c] + rest)
  {
    assert ([c] + rest)[1..] == rest;
  }

  lemma EscapeIsEscaped(before: Text, c: Unit, rest: Text)
    requires Backslashes(before) % 2 == 0 && !IsLineEnd(c)
    requires QuotesEscaped(before + [BACKSLASH, c], rest)
    ensures QuotesEscaped(before, [BACKSLASH, c] + rest)
  {
    hide QuotesEscaped, Backslashes, MagicLength;
    EscapeIsEven(before, c);
    assert [BACKSLASH, c] + rest == [BACKSLASH] + ([c] + rest);
    assert before + [BACKSLASH] + [c] == before + [BACKSLASH, c];
    QuotesEscapedPush(before + [BACKSLASH], c, rest);
    QuotesEscapedPush(before, BACKSLASH, [c] + rest);
  }

  /** A whole string, its opening quote already passed: the parity test closes it exactly if it ends plainly. */
  lemma StringIsClosed(before: Text, raw: Text)
    requires IsBody(raw)
    ensures QuotesEscaped(before + [QUOTE], raw)
    ensures EndsPlainly(raw) <==> BehindQuote(before + [QUOTE] + raw) == Plain
  {
    BackslashesPush(before, QUOTE);
    BodyIsEscaped(before + [QUOTE], raw);
    var lc := before + [QUOTE] + raw;
    if raw != [] {
      var c := raw[|raw| - 1];
      var shorter := raw[..|raw| - 1];
      assert lc[|lc| - 1] == c && lc[..|lc| - 1] == before + [QUOTE] + shorter;
      if IsTerminator(c) {
        BackslashesBehindQuote(before, shorter);
        BodyHasNoLineEnd(raw);
      }
    } else {
      assert lc[|lc| - 1] == QUOTE;
    }
  }

  lemma {:induction false} BodyHasNoLineEnd(raw: Text)
    requires IsBody(raw)
    ensures raw != [] ==> !IsLineEnd(raw[|raw| - 1])
    decreases |raw|
  {
    if raw != [] {
      var n := if raw[0] != BACKSLASH then 1 else if raw[1] != LOWER_U then 2 else 6;
      BodyHasNoLineEnd(raw[n..]);
    }
  }

  // ---------------------------------------------------------------- the run over all pieces

  lemma {:induction false} StripAppend(a: Text, b: Text)
    ensures Strip(a + b) == Strip(a) + Strip(b)
  {
    if a == [] {
      assert a + b == b;
    } else {
      assert (a + b)[1..] == a[1..] + b;
      StripAppend(a[1..], b);
    }
  }

  predicate NothingStripped(w: Text) {
    forall i :: 0 <= i < |w| ==> !IsStripped(w[i])
  }

  lemma {:induction false} StripNothing(w: Text)
    requires NothingStripped(w)
    ensures Strip(w) == w
  {
    if w != [] {
      StripNothing(w[1..]);
    }
  }

  lemma QuietPiece(p: Piece)
    requires IsPiece(p) && IsQuietPiece(p)
    ensures IsQuietText(PieceText(p))
    ensures p.Lex? ==> NothingStripped(PieceText(p))
  {
    if p.Lex? && p.lexeme.Number? {
      QuietNumber(p.lexeme.n);
    }
  }

  lemma QuietNumber(n: NumberText)
    requires n.WellShaped()
    ensures IsQuietText(n.ToText()) && NothingStripped(n.ToText())
  {
    QuietDigits(n.whole);
    if n.fraction != [] {
      QuietDigits(n.fraction[1..]);
      assert n.fraction == [DOT] + n.fraction[1..];
    }
    if n.exponent != [] {
      var k := MarkLength(n.exponent);
      QuietDigits(n.exponent[k..]);
      QuietSum(n.exponent[..k], n.exponent[k..]);
      assert n.exponent == n.exponent[..k] + n.exponent[k..];
    }
    QuietSum(n.fraction, n.exponent);
    QuietSum(n.whole, n.fraction + n.exponent);
    QuietSum(n.sign, n.whole + (n.fraction + n.exponent));
  }

  lemma QuietSum(a: Text, b: Text)
    requires IsQuietText(a) && NothingStripped(a) && IsQuietText(b) && NothingStripped(b)
    ensures IsQuietText(a + b) && NothingStripped(a + b)
  {
  }

  lemma QuietDigits(w: Text)
    requires AllDigits(w)
    ensures IsQuietText(w) && NothingStripped(w)
  {
    forall i | 0 <= i < |w|
      ensures w[i] != QUOTE && !IsLineEnd(w[i]) && w[i] != SLASH && w[i] != STAR && !IsStripped(w[i])
    {
      assert IsDigit(w[i]);
    }
  }

  lemma {:induction false} StripPieces(ps: seq<Piece>)
    requires ArePieces(ps) && AreQuiet(ps)
    ensures Strip(TextOf(ps)) == TextOf(Keep(ps))
  {
    if ps != [] {
      var p, rest := ps[0], ps[1..];
      StripAppend(PieceText(p), TextOf(rest));
      assert IsQuietPiece(p);
      StripPieces(rest);
      QuietPiece(p);
      if p.Lex? {
        StripNothing(PieceText(p));
      }
      TextOfAppend(if p.White? && IsStripped(p.c) then [] else [p], Keep(rest));
      OnePiece(p);
    }
  }

  lemma WhiteRun(before: Text, segment: Text, c: Unit, rest: Text)
    requires IsLineEnd(c)
    ensures Run(before, segment, [c] + rest, Plain) == Strip(segment) + Run(before + [c], [], rest, Plain)
  {
    hide Run;
    RunStep(before, segment, [c], rest, Plain);
    assert Strip(segment) + [] == Strip(segment);
  }

  lemma LineCommentRun(before: Text, segment: Text, body: Text, c: Unit, rest: Text)
    requires IsLineBody(body) && IsLineEnd(c)
    ensures Run(before, segment, [SLASH, SLASH] + (body + ([c] + rest)), Plain) ==
            Strip(segment) + Run(before + [SLASH, SLASH] + body + [c], [], rest, Plain)
  {
    hide Run;
    RunStep(before, segment, [SLASH, SLASH], body + ([c] + rest), Plain);
    LineRun(before + [SLASH, SLASH], [], body, c, rest);
    assert Strip(segment) + [] == Strip(segment);
  }

  lemma BlockCommentRun(before: Text, segment: Text, body: Text, rest: Text)
    requires TokenizerPasses(body)
    ensures Run(before, segment, [SLASH, STAR] + (body + ([STAR, SLASH] + rest)), Plain) ==
            Strip(segment) + Run(before + [SLASH, STAR] + body + [STAR, SLASH], [], rest, Plain)
  {
    hide Run;
    RunStep(before, segment, [SLASH, STAR], body + ([STAR, SLASH] + rest), Plain);
    BlockRun(before + [SLASH, STAR], [], body, rest);
    assert Strip(segment) + [] == Strip(segment);
  }

  lemma LineText(body: Text, crlf: bool, rest: Text)
    ensures PieceText(Line(body, crlf)) + rest ==
      [SLASH, SLASH] + (body + ([if crlf then RETURN else NEWLINE] + if crlf then [NEWLINE] + rest else rest))
  {
    var end := if crlf then [RETURN, NEWLINE] else [NEWLINE];
    Regrouped([SLASH, SLASH], body + end, rest);
    Regrouped(body, end, rest);
    assert end + rest == [if crlf then RETURN else NEWLINE] + if crlf then [NEWLINE] + rest else rest;
  }

  lemma BlockText(body: Text, rest: Text)
    ensures PieceText(Block(body)) + rest == [SLASH, STAR] + (body + ([STAR, SLASH] + rest))
  {
    Regrouped([SLASH, STAR], body + [STAR, SLASH], rest);
    Regrouped(body, [STAR, SLASH], rest);
  }

  /** A comment or a line end between pieces: what is pending is stripped and written. */
  lemma GapRun(before: Text, segment: Text, p: Piece, rest: Text) returns (before': Text)
    requires IsPiece(p) && !IsQuietPiece(p) && !p.Lex?
    ensures Run(before, segment, PieceText(p) + rest, Plain) == Strip(segment) + Run(before', [], rest, Plain)
  {
    hide Run;
    match p {
      case White(c) =>
        WhiteRun(before, segment, c, rest);
        before' := before + [c];
      case Line(body, crlf) =>
        var c := if crlf then RETURN else NEWLINE;
        var rest' := if crlf then [NEWLINE] + rest else rest;
        LineText(body, crlf, rest);
        LineCommentRun(before, segment, body, c, rest');
        before' := before + [SLASH, SLASH] + body + [c];
        if crlf {
          WhiteRun(before', [], NEWLINE, rest);
          before' := before' + [NEWLINE];
        }
      case Block(body) =>
        BlockText(body, rest);
        BlockCommentRun(before, segment, body, rest);
        before' := before + [SLASH, STAR] + body + [STAR, SLASH];
    }
  }

  /** A string: what is pending is stripped and written, the string goes out as it is. */
  lemma StringPieceRun(before: Text, segment: Text, raw: Text, rest: Text)
    requires IsBody(raw) && EndsPlainly(raw)
    ensures Run(before, segment, LexText(String(raw)) + rest, Plain) ==
      Strip(segment) + ([QUOTE] + raw + Run(before + [QUOTE] + raw + [QUOTE], [QUOTE], rest, Plain))
  {
    hide Run;
    StringText(raw, rest);
    RunStep(before, segment, [QUOTE], raw + ([QUOTE] + rest), Plain);
    StringIsClosed(before, raw);
    StringRun(before + [QUOTE], [QUOTE], raw, rest);
    assert Strip(segment) + [] == Strip(segment);
  }

  /**
   * The run over pieces. A quote left over from a string stands before the pending pieces; what precedes it is of no
   * consequence outside strings.
   */
  lemma {:induction false} RunPieces(before: Text, q: Text, pending: seq<Piece>, ps: seq<Piece>)
    requires q == [] || q == [QUOTE]
    requires ArePieces(pending) && AreQuiet(pending) && ArePieces(ps)
    ensures Run(before, q + TextOf(pending), TextOf(ps), Plain) == q + TextOf(Compact(pending, ps))
    decreases |ps|
  {
    hide Run;
    if ps == [] {
      RunNothing(before, q + TextOf(pending), Plain);
    } else {
      var p, rest := ps[0], ps[1..];
      if IsQuietPiece(p) {
        QuietPiece(p);
        QuietRun(before, q + TextOf(pending), PieceText(p), TextOf(rest), Plain);
        Push(pending, p);
        Regrouped(q, TextOf(pending), PieceText(p));
        RunPieces(before + PieceText(p), q, pending + [p], rest);
      } else {
        StripPending(q, pending);
        var kept := q + TextOf(Keep(pending));
        if p.Lex? {
          var raw := p.lexeme.raw;
          StringPieceRun(before, q + TextOf(pending), raw, TextOf(rest));
          RunPieces(before + [QUOTE] + raw + [QUOTE], [QUOTE], [], rest);
          assert [QUOTE] + TextOf([]) == [QUOTE];
          StringPieces(q, Keep(pending), raw, Compact([], rest));
        } else {
          var before' := GapRun(before, q + TextOf(pending), p, TextOf(rest));
          RunPieces(before', [], [], rest);
          assert [] + TextOf([]) == [] && [] + TextOf(Compact([], rest)) == TextOf(Compact([], rest));
          TextOfAppend(Keep(pending), Compact([], rest));
          Regrouped(q, TextOf(Keep(pending)), TextOf(Compact([], rest)));
        }
      }
    }
  }

  lemma RunNothing(before: Text, segment: Text, mode: Mode)
    ensures Run(before, segment, [], mode) == segment
  {
  }

  lemma StripPending(q: Text, pending: seq<Piece>)
    requires q == [] || q == [QUOTE]
    requires ArePieces(pending) && AreQuiet(pending)
    ensures Strip(q + TextOf(pending)) == q + TextOf(Keep(pending))
  {
    StripAppend(q, TextOf(pending));
    StripNothing(q);
    StripPieces(pending);
  }

  lemma StringPieces(q: Text, kept: seq<Piece>, raw: Text, rest: seq<Piece>)
    ensures q + TextOf(kept) + ([QUOTE] + raw + ([QUOTE] + TextOf(rest))) ==
            q + TextOf(kept + ([Lex(String(raw))] + rest))
  {
    var p := Lex(String(raw));
    TextOfAppend(kept, [p] + rest);
    TextOfAppend([p], rest);
    OnePiece(p);
    StringText(raw, TextOf(rest));
    Regrouped(q, TextOf(kept), PieceText(p) + TextOf(rest));
  }

  lemma StringText(raw: Text, rest: Text)
    ensures PieceText(Lex(String(raw))) + rest == [QUOTE] + raw + ([QUOTE] + rest)
    ensures PieceText(Lex(String(raw))) + rest == [QUOTE] + (raw + ([QUOTE] + rest))
  {
    Regrouped([QUOTE], raw + [QUOTE], rest);
    Regrouped(raw, [QUOTE], rest);
    Regrouped([QUOTE], raw, [QUOTE] + rest);
  }

  /** The minified text is the text of the pieces that are left. */
  lemma MinifiedPieces(ps: seq<Piece>)
    requires ArePieces(ps)
    ensures Minified(TextOf(ps)) == TextOf(Compact([], ps))
  {
    RunPieces([], [], [], ps);
    assert [] + TextOf([]) == [];
    assert [] + TextOf(Compact([], ps)) == TextOf(Compact([], ps));
  }

  lemma {:induction false} KeepLexemes(ps: seq<Piece>)
    ensures Lexemes(Keep(ps)) == Lexemes(ps)
    ensures ArePieces(ps) ==> ArePieces(Keep(ps))
  {
    if ps != [] {
      KeepLexemes(ps[1..]);
      var head := if ps[0].White? && IsStripped(ps[0].c) then [] else [ps[0]];
      LexemesAppend(head, Keep(ps[1..]));
      PiecesAppend(head, Keep(ps[1..]));
      OnePiece(ps[0]);
    }
  }

  /** No lexeme is lost, added or moved. */
  lemma {:induction false} CompactLexemes(pending: seq<Piece>, ps: seq<Piece>)
    requires ArePieces(pending) && ArePieces(ps)
    ensures Lexemes(Compact(pending, ps)) == Lexemes(pending) + Lexemes(ps)
    ensures ArePieces(Compact(pending, ps))
    decreases |ps|
  {
    if ps != [] {
      var p, rest := ps[0], ps[1..];
      OnePiece(p);
      if IsQuietPiece(p) {
        Push(pending, p);
        CompactLexemes(pending + [p], rest);
        LexemesGrouped(Lexemes(pending), Lexemes([p]), Lexemes(rest));
      } else {
        KeepLexemes(pending);
        CompactLexemes([], rest);
        assert [] + Lexemes(rest) == Lexemes(rest);
        var more := if p.Lex? then [p] + Compact([], rest) else Compact([], rest);
        LexemesAppend([p], Compact([], rest));
        LexemesAppend(Keep(pending), more);
        PiecesAppend([p], Compact([], rest));
        PiecesAppend(Keep(pending), more);
      }
    }
  }

  lemma LexemesGrouped(a: seq<Lexeme>, b: seq<Lexeme>, c: seq<Lexeme>)
    ensures a + b + c == a + (b + c)
  {
  }
}
