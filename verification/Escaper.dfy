/** `Escaper.escapeJsonString`: the text of a string between its quotes. */
module Escaper {
  import opened Units

  /** The units the escaper rewrites; no supplementary code point is among them. */
  predicate NeedsEscape(c: Unit) {
    c < 0x20 || c == 0x2028 || c == 0x2029 || 0x7F <= c <= 0x9F || c == QUOTE || c == BACKSLASH
  }

  function HexChar(d: int): Unit
    requires 0 <= d < 16
  {
    if d < 10 then ZERO + d else 0x61 + (d - 10)
  }

  function HexEscape(c: Unit): Text {
    [BACKSLASH, LOWER_U, HexChar(c / 0x1000), HexChar(c / 0x100 % 16), HexChar(c / 16 % 16), HexChar(c % 16)]
  }

  /** What one unit that needs an escape is written as. */
  function EscapeSequence(c: Unit): Text {
    if c == 0x08 then [BACKSLASH, 0x62]
    else if c == TAB then [BACKSLASH, 0x74]
    else if c == NEWLINE then [BACKSLASH, 0x6E]
    else if c == FORM_FEED then [BACKSLASH, 0x66]
    else if c == RETURN then [BACKSLASH, 0x72]
    else if c == BACKSLASH then [BACKSLASH, BACKSLASH]
    else if c == QUOTE then [BACKSLASH, QUOTE]
    else HexEscape(c)
  }

  function EscapeUnit(c: Unit): (t: Text)
    ensures t != []
  {
    if NeedsEscape(c) then EscapeSequence(c) else [c]
  }

  /** The unit-by-unit reading of `escapeJsonString`. */
  function Escape(s: Text): Text {
    if s == [] then [] else EscapeUnit(s[0]) + Escape(s[1..])
  }

  lemma {:induction false} EscapeAppend(a: Text, b: Text)
    ensures Escape(a + b) == Escape(a) + Escape(b)
  {
    if a == [] {
      assert a + b == b;
    } else {
      assert (a + b)[1..] == a[1..] + b;
      EscapeAppend(a[1..], b);
    }
  }

  lemma EscapeStep(s: Text, i: nat, n: nat)
    requires i + n <= |s| && 1 <= n <= 2
    requires n == 2 ==> !NeedsEscape(s[i]) && !NeedsEscape(s[i + 1])
    ensures Escape(s[..i + n]) == Escape(s[..i]) + (if n == 1 then EscapeUnit(s[i]) else s[i..i + 2])
  {
    assert s[..i + n] == s[..i] + s[i..i + n];
    EscapeAppend(s[..i], s[i..i + n]);
    assert Escape(s[i..i + n]) == EscapeUnit(s[i]) + Escape(s[i..i + n][1..]);
    if n == 2 {
      assert s[i..i + 2][1..] == [s[i + 1]];
      assert Escape([s[i + 1]]) == EscapeUnit(s[i + 1]) + [];
    }
  }

  predicate IsHighSurrogate(c: Unit) {
    0xD800 <= c <= 0xDBFF
  }

  predicate IsLowSurrogate(c: Unit) {
    0xDC00 <= c <= 0xDFFF
  }

  /** `Character.codePointAt`. */
  function CodePointAt(s: Text, i: nat): (cp: int)
    requires i < |s|
    ensures cp < 0x1_0000 <==> !(IsHighSurrogate(s[i]) && i + 1 < |s| && IsLowSurrogate(s[i + 1]))
    ensures cp < 0x1_0000 ==> cp == s[i]
  {
    if IsHighSurrogate(s[i]) && i + 1 < |s| && IsLowSurrogate(s[i + 1])
    then 0x1_0000 + (s[i] as int - 0xD800) * 0x400 + (s[i + 1] as int - 0xDC00)
    else s[i]
  }

  /** What is written and the run not yet written make up the escaped part of the text. */
  ghost predicate CopiesRuns(plain: Text, out: Text, pos: nat, i: nat) {
    pos <= i <= |plain| && out + plain[pos..i] == Escape(plain[..i])
  }

  lemma RunGrows(plain: Text, out: Text, pos: nat, i: nat, n: nat)
    requires CopiesRuns(plain, out, pos, i) && i + n <= |plain| && 1 <= n <= 2
    requires !NeedsEscape(plain[i]) && (n == 2 ==> !NeedsEscape(plain[i + 1]))
    ensures CopiesRuns(plain, out, pos, i + n)
  {
    EscapeStep(plain, i, n);
    assert plain[pos..i + n] == plain[pos..i] + plain[i..i + n];
    Regrouped(out, plain[pos..i], plain[i..i + n]);
  }

  lemma RunEnds(plain: Text, out: Text, pos: nat, i: nat)
    requires CopiesRuns(plain, out, pos, i) && i < |plain| && NeedsEscape(plain[i])
    ensures CopiesRuns(plain, out + plain[pos..i] + EscapeSequence(plain[i]), i + 1, i + 1)
  {
    EscapeStep(plain, i, 1);
    assert plain[i + 1..i + 1] == [];
  }

  /** The loop copies runs of plain code points and rewrites the others. */
  method EscapeJsonString(plain: Text) returns (out: Text)
    ensures out == Escape(plain)
  {
    out := [];
    var pos, i := 0, 0;
    while i < |plain|
      invariant CopiesRuns(plain, out, pos, i)
    {
      var codePoint := CodePointAt(plain, i);
      var charCount := if codePoint >= 0x1_0000 then 2 else 1;
      if codePoint >= 0x1_0000 || !NeedsEscape(codePoint) {
        RunGrows(plain, out, pos, i, charCount);
      } else {
        RunEnds(plain, out, pos, i);
        out := out + plain[pos..i];
        out := out + EscapeSequence(codePoint);
        pos := i + charCount;
      }
      i := i + charCount;
    }
    assert plain[..|plain|] == plain && plain[pos..] == plain[pos..i];
    out := out + plain[pos..];
  }

  /** The letters that make an escape with a backslash before them. */
  predicate IsEscapeLetter(c: Unit) {
    c == QUOTE || c == BACKSLASH || c == 0x62 || c == 0x66 || c == 0x6E || c == 0x72 || c == 0x74 || c == LOWER_U
  }

  predicate IsLowerHex(c: Unit) {
    ZERO <= c <= ZERO + 9 || 0x61 <= c <= 0x66
  }

  /**
   * Read from the front, every backslash begins a whole escape, and nothing outside the escapes needs one:
   * no bare quote, no control character, no line terminator.
   */
  predicate IsClean(t: Text) {
    if t == [] then true
    else if t[0] != BACKSLASH then !NeedsEscape(t[0]) && IsClean(t[1..])
    else
      && |t| >= 2 && IsEscapeLetter(t[1])
      && (t[1] == LOWER_U ==> |t| >= 6 && forall i :: 2 <= i < 6 ==> IsLowerHex(t[i]))
      && IsClean(t[2..])
  }

  lemma {:induction false} PlainThenClean(a: Text, tail: Text)
    requires IsClean(tail) && forall i :: 0 <= i < |a| ==> !NeedsEscape(a[i])
    ensures IsClean(a + tail)
  {
    if a == [] {
      assert a + tail == tail;
    } else {
      assert (a + tail)[1..] == a[1..] + tail;
      PlainThenClean(a[1..], tail);
    }
  }

  lemma HexIsLow(d: int)
    requires 0 <= d < 16
    ensures IsLowerHex(HexChar(d)) && !NeedsEscape(HexChar(d))
  {
  }

  lemma HexThenClean(c: Unit, tail: Text)
    requires IsClean(tail)
    ensures IsClean(HexEscape(c) + tail)
  {
    var head := HexEscape(c);
    var t := head + tail;
    HexIsLow(c / 0x1000);
    HexIsLow(c / 0x100 % 16);
    HexIsLow(c / 16 % 16);
    HexIsLow(c % 16);
    hide NeedsEscape, IsLowerHex, HexChar;
    assert t[0] == BACKSLASH && t[1] == LOWER_U && t[2..] == head[2..] + tail;
    assert IsEscapeLetter(t[1]);
    assert forall i :: 2 <= i < 6 ==> t[i] == head[i];
    PlainThenClean(head[2..], tail);
  }

  lemma EscapeThenClean(c: Unit, tail: Text)
    requires NeedsEscape(c) && IsClean(tail)
    ensures IsClean(EscapeSequence(c) + tail)
  {
    var head := EscapeSequence(c);
    if head == HexEscape(c) {
      HexThenClean(c, tail);
    } else {
      hide HexEscape, NeedsEscape;
      var t := head + tail;
      assert t[0] == BACKSLASH && t[1] == head[1] != LOWER_U && t[2..] == tail;
    }
  }

  /** The escaped form of any text is clean. */
  lemma {:induction false} EscapedTextIsClean(s: Text)
    ensures IsClean(Escape(s))
  {
    if s != [] {
      EscapedTextIsClean(s[1..]);
      if NeedsEscape(s[0]) {
        EscapeThenClean(s[0], Escape(s[1..]));
      } else {
        PlainThenClean([s[0]], Escape(s[1..]));
      }
    }
  }

  /** A unit that may stand in a text as it is. */
  predicate StandsBare(c: Unit) {
    c >= 0x20 && c != 0x22 && c != 0x5C && !(0x7F <= c <= 0x9F) && c != 0x2028 && c != 0x2029
  }

  /** No other unit is left in the escaped text but quotes and backslashes, and a text is left alone exactly if it has no other. */
  lemma {:induction false} LeftAlone(s: Text)
    ensures forall i :: 0 <= i < |Escape(s)| ==> StandsBare(Escape(s)[i]) || Escape(s)[i] == 0x22 || Escape(s)[i] == 0x5C
    ensures |s| <= |Escape(s)| && (Escape(s) == s <==> forall i :: 0 <= i < |s| ==> StandsBare(s[i]))
  {
    if s != [] {
      LeftAlone(s[1..]);
      UnitEscaped(s[0]);
      hide StandsBare, EscapeUnit;
      var rest := Escape(s[1..]);
      assert s == [s[0]] + s[1..];
      assert forall i :: 0 <= i < |s| ==> s[i] == if i == 0 then s[0] else s[1..][i - 1];
      if StandsBare(s[0]) {
        assert Escape(s)[1..] == rest;
        assert (forall i :: 0 <= i < |s| ==> StandsBare(s[i])) <==> forall i :: 0 <= i < |s[1..]| ==> StandsBare(s[1..][i]);
      }
    }
  }

  lemma UnitEscaped(c: Unit)
    ensures var t := EscapeUnit(c);
            && (StandsBare(c) ==> t == [c]) && (!StandsBare(c) ==> |t| >= 2)
            && forall i :: 0 <= i < |t| ==> StandsBare(t[i]) || t[i] == 0x22 || t[i] == 0x5C
  {
    if NeedsEscape(c) && EscapeSequence(c) == HexEscape(c) {
      HexIsLow(c / 0x1000);
      HexIsLow(c / 0x100 % 16);
      HexIsLow(c / 16 % 16);
      HexIsLow(c % 16);
      hide HexChar;
    } else {
      hide HexEscape;
    }
  }

  /** The escapes of two units. */
  lemma ShortEscapes()
    ensures Escape([0x08]) == Chars("\\b") && Escape([0x09]) == Chars("\\t") && Escape([0x0A]) == Chars("\\n")
    ensures Escape([0x0C]) == Chars("\\f") && Escape([0x0D]) == Chars("\\r")
    ensures Escape([0x22]) == Chars("\\\"") && Escape([0x5C]) == Chars("\\\\")
  {
  }
}
