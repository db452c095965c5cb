/** What the reader makes of a comment that the tokenizer has closed: it pairs stars, and it may close it too early. */
module Comments {
  import opened Units
  import opened JsonValues
  import opened Numbers
  import opened ReaderSpec
  import opened Layout

  // ---------------------------------------------------------------- the first end of a block comment

  /** The reader, which takes stars in pairs, passes over a comment body and then sees the end of the comment. */
  predicate ReaderPasses(body: Text) {
    if body == [] then true
    else if body[0] == DONE then false
    else if body[0] != STAR then ReaderPasses(body[1..])
    else |body| >= 2 && body[1] != SLASH && body[1] != DONE && ReaderPasses(body[2..])
  }

  lemma {:induction false} SkipBlockShortens(s: Text)
    ensures SkipBlock(s).Ok? ==> |SkipBlock(s).value| + 2 <= |s|
  {
    if !AtDone(s) {
      if StartsWith(s[1..], STAR) {
        SkipBlockShortens(s[2..]);
      } else {
        SkipBlockShortens(s[1..]);
      }
    }
  }

  /** The comment ends where it should, whatever follows, exactly when its body is passed over. */
  lemma {:induction false} BlockEndsIff(x: Unit, body: Text, rest: Text)
    requires x != DONE
    ensures SkipBlock([x] + (body + ([STAR, SLASH] + rest))) == Ok([SLASH] + rest) <==> ReaderPasses(body)
    decreases |body|
  {
    var s := [x] + (body + ([STAR, SLASH] + rest));
    if body == [] {
      assert s[1..] == [STAR, SLASH] + rest && s[2..] == [SLASH] + rest;
    } else if body[0] != STAR {
      assert s[1..] == [body[0]] + (body[1..] + ([STAR, SLASH] + rest));
      if body[0] != DONE {
        BlockEndsIff(body[0], body[1..], rest);
      }
    } else {
      PairedStar(s, body, rest);
    }
  }

  lemma PairedStar(s: Text, body: Text, rest: Text)
    requires body != [] && body[0] == STAR && |s| == |body| + |rest| + 3 && s[0] != DONE
    requires s[1..] == body + ([STAR, SLASH] + rest)
    ensures SkipBlock(s) == Ok([SLASH] + rest) <==> ReaderPasses(body)
    decreases |body|, 0
  {
    var end := [STAR, SLASH] + rest;
    if |body| == 1 {
      assert s[2..] == end && end[1..] == [SLASH] + rest;
      SkipBlockShortens(end[1..]);
    } else {
      assert s[2..] == [body[1]] + (body[2..] + end);
      if body[1] != SLASH && body[1] != DONE {
        BlockEndsIff(body[1], body[2..], rest);
      }
    }
  }

  // ---------------------------------------------------------------- all the way to the next lexeme

  /** Where the reader believes to be while it is in a comment. */
  datatype ReaderPlace = WithinBlock | WithinLine | Outside

  /** What comes of it: the reader leaves with the comment, runs out of text, or meets a lexeme that starts so. */
  datatype Passage = Through | Stuck | Meets(c: Unit)

  /** The passage through a comment body, and through the end of a block or of a line behind it. */
  function PassageOf(place: ReaderPlace, body: Text, block: bool): Passage
    decreases |body|
  {
    match place
    case WithinBlock =>
      if body == [] then (if block then Through else Stuck)
      else if body[0] == DONE then Stuck
      else if body[0] != STAR then PassageOf(WithinBlock, body[1..], block)
      else if |body| == 1 || body[1] == DONE then Stuck
      else if body[1] == SLASH then PassageOf(Outside, body[2..], block)
      else PassageOf(WithinBlock, body[2..], block)
    case WithinLine =>
      if body == [] then (if block then Stuck else Through)
      else if body[0] == NEWLINE || body[0] == DONE then PassageOf(Outside, body[1..], block)
      else PassageOf(WithinLine, body[1..], block)
    case Outside =>
      if body == [] then (if block then Meets(STAR) else Through)
      else if IsWhitespace(body[0]) then PassageOf(Outside, body[1..], block)
      else if body[0] != SLASH then Meets(body[0])
      else if |body| == 1 then (if block then Stuck else Meets(SLASH))
      else if body[1] == STAR then PassageOf(WithinBlock, body[2..], block)
      else if body[1] == SLASH then PassageOf(WithinLine, body[2..], block)
      else Meets(SLASH)
  }

  function PassageThrough(p: Piece): Passage {
    match p
    case Line(body, crlf) => PassageOf(WithinLine, if crlf then body + [RETURN] else body, false)
    case Block(body) => PassageOf(WithinBlock, body, true)
    case _ => Through
  }

  /** The reader takes a piece for what it is. */
  predicate IsClear(p: Piece) {
    match p
    case White(c) => IsWhitespace(c)
    case Lex(l) => IsLexeme(l)
    case _ => PassageThrough(p) == Through
  }

  predicate AllClear(ps: seq<Piece>) {
    forall i :: 0 <= i < |ps| ==> IsClear(ps[i])
  }

  function Closing(block: bool): Text {
    if block then [STAR, SLASH] else [NEWLINE]
  }

  /** A text that closes no comment. */
  predicate IsMute(rest: Text) {
    STAR !in rest && NEWLINE !in rest && DONE !in rest
  }

  /** The white space skipped from inside a comment on. */
  function Resumed(place: ReaderPlace, s: Text): Result<Text> {
    match place
    case WithinBlock =>
      var closing :- SkipBlock(s);
      SkipWhiteSpace(closing[1..])
    case WithinLine =>
      var eol := SkipLine(s);
      if eol == [] then Err(Malformed) else SkipWhiteSpace(eol[1..])
    case Outside => SkipWhiteSpace(s)
  }

  predicate Finds(r: Result<Text>, passage: Passage, rest: Text) {
    match passage
    case Through => r == SkipWhiteSpace(rest)
    case Stuck => IsMute(rest) ==> r == Err(Malformed)
    case Meets(c) => r.Ok? && r.value != [] && r.value[0] == c
  }

  lemma {:induction false} NeverClosed(s: Text)
    requires forall i :: 0 < i < |s| ==> s[i] != STAR
    ensures SkipBlock(s) == Err(Malformed)
  {
    if !AtDone(s) {
      NeverClosed(s[1..]);
    }
  }

  lemma {:induction false} NeverEnded(s: Text)
    requires NEWLINE !in s && DONE !in s
    ensures SkipLine(s) == []
  {
    if s != [] {
      NeverEnded(s[1..]);
    }
  }

  lemma {:induction false} FromBlock(x: Unit, body: Text, block: bool, rest: Text)
    requires x != DONE
    ensures Finds(Resumed(WithinBlock, [x] + (body + (Closing(block) + rest))), PassageOf(WithinBlock, body, block), rest)
    decreases |body|, 0
  {
    hide SkipWhiteSpace;
    var end := Closing(block) + rest;
    var s := [x] + (body + end);
    if body == [] {
      assert s[1..] == end;
      if block {
        assert s[2..] == [SLASH] + rest && s[2..][1..] == rest;
      } else if IsMute(rest) {
        NeverClosed(s);
      }
    } else if body[0] != STAR {
      assert s[1..] == [body[0]] + (body[1..] + end);
      if body[0] != DONE {
        FromBlock(body[0], body[1..], block, rest);
      }
    } else if |body| == 1 {
      assert s[2..] == end;
      if IsMute(rest) {
        NeverClosed(end);
      }
    } else {
      assert s[2..] == [body[1]] + (body[2..] + end);
      if body[1] == SLASH {
        assert s[2..][1..] == body[2..] + end;
        FromOutside(body[2..], block, rest);
      } else if body[1] != DONE {
        FromBlock(body[1], body[2..], block, rest);
      }
    }
  }

  lemma {:induction false} FromLine(body: Text, block: bool, rest: Text)
    ensures Finds(Resumed(WithinLine, body + (Closing(block) + rest)), PassageOf(WithinLine, body, block), rest)
    decreases |body|, 0
  {
    hide SkipWhiteSpace;
    var end := Closing(block) + rest;
    var s := body + end;
    if body == [] {
      assert s == end;
      if !block {
        assert s[1..] == rest;
      } else if IsMute(rest) {
        NeverEnded(s);
      }
    } else {
      assert s[1..] == body[1..] + end;
      if body[0] == NEWLINE || body[0] == DONE {
        FromOutside(body[1..], block, rest);
      } else {
        FromLine(body[1..], block, rest);
      }
    }
  }

  lemma {:induction false} FromOutside(body: Text, block: bool, rest: Text)
    ensures Finds(SkipWhiteSpace(body + (Closing(block) + rest)), PassageOf(Outside, body, block), rest)
    decreases |body|, 0
  {
    var end := Closing(block) + rest;
    var s := body + end;
    if body == [] {
      assert s == end;
      if !block {
        assert s[1..] == rest;
      }
    } else {
      assert s[1..] == body[1..] + end;
      if IsWhitespace(body[0]) {
        FromOutside(body[1..], block, rest);
      } else if body[0] == SLASH {
        FromSlash(body, block, rest);
      }
    }
  }

  lemma FromSlash(body: Text, block: bool, rest: Text)
    requires body != [] && body[0] == SLASH
    ensures Finds(SkipWhiteSpace(body + (Closing(block) + rest)), PassageOf(Outside, body, block), rest)
    decreases |body|, 0, 0
  {
    hide SkipBlock;
    var end := Closing(block) + rest;
    var s := body + end;
    if |body| == 1 {
      assert s[1..] == end;
      if block && IsMute(rest) {
        NeverClosed(end);
      }
    } else if body[1] == STAR {
      assert s[1..] == [STAR] + (body[2..] + end);
      FromBlock(STAR, body[2..], block, rest);
    } else if body[1] == SLASH {
      assert s[1..] == [SLASH] + (body[2..] + end) && s[1..][1..] == body[2..] + end;
      FromLine(body[2..], block, rest);
    }
  }

  /** What the reader finds at a comment is what its passage says. */
  lemma CommentFinds(p: Piece, rest: Text)
    requires p.Line? || p.Block?
    ensures Finds(SkipWhiteSpace(PieceText(p) + rest), PassageThrough(p), rest)
  {
    match p
    case Line(body, crlf) =>
      var full := if crlf then body + [RETURN] else body;
      var s := PieceText(p) + rest;
      assert s == [SLASH, SLASH] + (full + ([NEWLINE] + rest));
      assert s[1..] == [SLASH] + (full + ([NEWLINE] + rest)) && s[1..][1..] == full + ([NEWLINE] + rest);
      FromLine(full, false, rest);
    case Block(body) =>
      var s := PieceText(p) + rest;
      assert s == [SLASH, STAR] + (body + ([STAR, SLASH] + rest));
      assert s[1..] == [STAR] + (body + ([STAR, SLASH] + rest));
      FromBlock(STAR, body, true, rest);
  }

  /** A comment the reader ends where it should is clear. */
  lemma {:induction false} PassedIsClear(body: Text)
    requires ReaderPasses(body)
    ensures PassageOf(WithinBlock, body, true) == Through
  {
    if body != [] {
      PassedIsClear(if body[0] == STAR then body[2..] else body[1..]);
    }
  }
}
