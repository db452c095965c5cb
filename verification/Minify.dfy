/** `Minify.minify`: comments and white space out of a JSON text. */
module Minifier {
  import opened Units

  datatype Mode = Plain | InString | InBlock | InLine

  predicate IsLineEnd(c: Unit) {
    c == NEWLINE || c == RETURN
  }

  /** The units `\s` matches. */
  predicate IsStripped(c: Unit) {
    0x09 <= c <= 0x0D || c == SPACE
  }

  function Strip(s: Text): Text {
    if s == [] then [] else (if IsStripped(s[0]) then [] else [s[0]]) + Strip(s[1..])
  }

  predicate StartsWithPair(s: Text, a: Unit, b: Unit) {
    |s| >= 2 && s[0] == a && s[1] == b
  }

  /** The length of the match of the tokenizer at the start of `s`, or 0. */
  function TokenLength(s: Text): (n: nat)
    ensures n <= |s|
  {
    if s == [] then 0
    else if s[0] == QUOTE || IsLineEnd(s[0]) then 1
    else if StartsWithPair(s, SLASH, STAR) || StartsWithPair(s, STAR, SLASH) || StartsWithPair(s, SLASH, SLASH) then 2
    else 0
  }

  /** How many backslashes `s` ends with. */
  function Backslashes(s: Text): (n: nat)
    ensures n <= |s|
  {
    if s != [] && s[|s| - 1] == BACKSLASH then 1 + Backslashes(s[..|s| - 1]) else 0
  }

  /** The line terminators that `$` looks past at the end of the input. */
  predicate IsTerminator(c: Unit) {
    IsLineEnd(c) || c == 0x85 || c == 0x2028 || c == 0x2029
  }

  /** The length of the first match of `(\\)*$`: the end may be taken to lie before a last line terminator. */
  function MagicLength(lc: Text): nat {
    if lc == [] || !IsTerminator(lc[|lc| - 1]) then Backslashes(lc)
    else if |lc| >= 2 && lc[|lc| - 2] == RETURN && lc[|lc| - 1] == NEWLINE then Backslashes(lc[..|lc| - 2])
    else Backslashes(lc[..|lc| - 1])
  }

  /** Where `$` matches: at the end, or before a line terminator that ends the text. */
  predicate AtEnd(t: Text, i: nat) {
    var n := |t|;
    || i == n
    || (i + 1 == n && t[i] in {0x0A, 0x0D, 0x85, 0x2028, 0x2029} && !(t[i] == 0x0A && i > 0 && t[i - 1] == 0x0D))
    || (i + 2 == n && t[i] == 0x0D && t[i + 1] == 0x0A)
  }

  /** `(\\)*$` matches the text from `i` to `j`. */
  predicate MatchesEnd(t: Text, i: nat, j: nat) {
    i <= j && AtEnd(t, j) && forall k :: i <= k < j ==> t[k] == 0x5C
  }

  lemma {:induction false} BackslashesEnd(s: Text)
    ensures var n := Backslashes(s);
            && (forall k :: |s| - n <= k < |s| ==> s[k] == 0x5C)
            && (n < |s| ==> s[|s| - n - 1] != 0x5C)
  {
    if s != [] && s[|s| - 1] == BACKSLASH {
      BackslashesEnd(s[..|s| - 1]);
    }
  }

  /** Where the first `$` of a text matches. */
  function FirstEnd(t: Text): (n: nat)
    ensures n <= |t|
  {
    if t == [] || !IsTerminator(t[|t| - 1]) then |t|
    else if |t| >= 2 && t[|t| - 2] == RETURN && t[|t| - 1] == NEWLINE then |t| - 2
    else |t| - 1
  }

  lemma EndsAt(t: Text, j: nat)
    ensures AtEnd(t, FirstEnd(t))
    ensures AtEnd(t, j) ==> j == FirstEnd(t) || (FirstEnd(t) < |t| == j && IsTerminator(t[j - 1]))
  {
  }

  /** The length is that of the first match from the left, which is the longest one there. */
  lemma MagicIsFirstMatch(t: Text) returns (i: nat)
    ensures MatchesEnd(t, i, i + MagicLength(t))
    ensures forall k: nat, j: nat :: MatchesEnd(t, k, j) ==> i <= k && (k == i ==> j <= i + MagicLength(t))
  {
    var e := FirstEnd(t);
    var s := t[..e];
    assert e == |t| ==> s == t;
    assert MagicLength(t) == Backslashes(s);
    BackslashesEnd(s);
    EndsAt(t, e);
    i := e - Backslashes(s);
    assert i > 0 ==> t[i - 1] != 0x5C;
    assert e < |t| ==> t[|t| - 1] != 0x5C;
    forall k: nat, j: nat | MatchesEnd(t, k, j)
      ensures i <= k && (k == i ==> j <= e)
    {
      EndsAt(t, j);
    }
  }

  /** What the segment before a token contributes. */
  function Emitted(mode: Mode, segment: Text): Text {
    match mode
    case Plain => Strip(segment)
    case InString => segment
    case InBlock => []
    case InLine => []
  }

  /** The mode behind a token, given the text before it. */
  function NextMode(mode: Mode, before: Text, token: Text): Mode
    requires token != []
  {
    match mode
    case Plain =>
      if token[0] == QUOTE then InString
      else if token == [SLASH, STAR] then InBlock
      else if token == [SLASH, SLASH] then InLine
      else Plain
    case InString => if token[0] == QUOTE && MagicLength(before) % 2 == 0 then Plain else InString
    case InBlock => if token == [STAR, SLASH] then Plain else InBlock
    case InLine => if IsLineEnd(token[0]) then Plain else InLine
  }

  predicate Writes(mode: Mode) {
    mode == Plain || mode == InString
  }

  /** Whether a token is copied to the output as it is. */
  predicate IsCopied(mode: Mode, token: Text)
    requires token != []
  {
    Writes(mode) && token[0] != QUOTE && !IsLineEnd(token[0])
    && !(mode == Plain && (token == [SLASH, STAR] || token == [SLASH, SLASH]))
  }

  /** A quote is left for the segment behind it. */
  predicate IsKept(mode: Mode, token: Text)
    requires token != []
  {
    Writes(mode) && token[0] == QUOTE
  }

  /**
   * The output from here on: `before` is the text passed over, `segment` the end of it since the last token, `s` the
   * text to come. What is left behind the last token goes out untouched.
   */
  function Run(before: Text, segment: Text, s: Text, mode: Mode): Text
    decreases |s|
  {
    if s == [] then segment
    else if TokenLength(s) == 0 then Run(before + [s[0]], segment + [s[0]], s[1..], mode)
    else
      var n := TokenLength(s);
      var token := s[..n];
      Emitted(mode, segment)
      + (if IsCopied(mode, token) then token else [])
      + Run(before + token, if IsKept(mode, token) then token else [], s[n..], NextMode(mode, before, token))
  }

  function Minified(s: Text): Text {
    Run([], [], s, Plain)
  }

  /** How far one step of the run goes. */
  function StepLength(s: Text): (n: nat)
    requires s != []
    ensures 1 <= n <= |s|
  {
    if TokenLength(s) == 0 then 1 else TokenLength(s)
  }

  lemma RunStep(before: Text, segment: Text, head: Text, rest: Text, mode: Mode)
    requires head != [] && |head| == StepLength(head + rest)
    ensures Run(before, segment, head + rest, mode) ==
      if TokenLength(head + rest) == 0 then Run(before + head, segment + head, rest, mode)
      else Emitted(mode, segment) + (if IsCopied(mode, head) then head else [])
           + Run(before + head, if IsKept(mode, head) then head else [], rest, NextMode(mode, before, head))
  {
    var s, n := head + rest, |head|;
    assert s[..n] == head && s[n..] == rest && (n == 1 ==> head == [s[0]]);
  }

  // ---------------------------------------------------------------- the loop

  /** `matcher.find()`: the next match from `pos` on. */
  method Find(s: Text, pos: nat) returns (found: bool, start: nat, end: nat)
    requires pos <= |s|
    ensures found ==> pos <= start < end <= |s| && end == start + TokenLength(s[start..]) > start
    ensures found ==> forall i :: pos <= i < start ==> TokenLength(s[i..]) == 0
    ensures !found ==> forall i :: pos <= i <= |s| ==> TokenLength(s[i..]) == 0
  {
    start, end := pos, pos;
    while start < |s|
      invariant pos <= start <= |s|
      invariant forall i :: pos <= i < start ==> TokenLength(s[i..]) == 0
    {
      if TokenLength(s[start..]) > 0 {
        return true, start, start + TokenLength(s[start..]);
      }
      start := start + 1;
    }
    return false, start, end;
  }

  method StripText(s: Text) returns (t: Text)
    ensures t == Strip(s)
  {
    t := [];
    for i := 0 to |s|
      invariant t + Strip(s[i..]) == Strip(s)
    {
      assert s[i..][1..] == s[i + 1..];
      Regrouped(t, if IsStripped(s[i]) then [] else [s[i]], Strip(s[i + 1..]));
      if !IsStripped(s[i]) {
        t := t + [s[i]];
      }
    }
  }

  ghost function ModeOf(inString: bool, inBlock: bool, inLine: bool): Mode {
    if inString then InString else if inBlock then InBlock else if inLine then InLine else Plain
  }

  ghost predicate OneFlag(inString: bool, inBlock: bool, inLine: bool) {
    !(inString && inBlock) && !(inString && inLine) && !(inBlock && inLine)
  }

  /** The flags behind a token, and whether the token is copied; the branches of the loop. */
  method Switch(inString: bool, inBlock: bool, inLine: bool, lc: Text, token: Text)
    returns (inString': bool, inBlock': bool, inLine': bool, kept: bool, copied: bool)
    requires OneFlag(inString, inBlock, inLine) && IsToken(token)
    ensures OneFlag(inString', inBlock', inLine')
    ensures ModeOf(inString', inBlock', inLine') == NextMode(ModeOf(inString, inBlock, inLine), lc, token)
    ensures kept == IsKept(ModeOf(inString, inBlock, inLine), token)
    ensures copied == IsCopied(ModeOf(inString, inBlock, inLine), token)
  {
    inString', inBlock', inLine' := inString, inBlock, inLine;
    kept, copied := false, false;
    if token[0] == QUOTE && !inBlock && !inLine {
      if !inString || MagicLength(lc) % 2 == 0 {
        inString' := !inString;
      }
      kept := true;
    } else if token == [SLASH, STAR] && !inString && !inBlock && !inLine {
      inBlock' := true;
    } else if token == [STAR, SLASH] && !inString && inBlock {
      inBlock' := false;
    } else if token == [SLASH, SLASH] && !inString && !inBlock && !inLine {
      inLine' := true;
    } else if IsLineEnd(token[0]) && !inString && !inBlock && inLine {
      inLine' := false;
    } else if !inBlock && !inLine && !IsStripped(token[0]) {
      copied := true;
    }
  }

  predicate IsToken(token: Text) {
    token != [] && TokenLength(token) == |token|
  }

  /** What is written, and what the rest of the run would add to it. */
  ghost predicate Remains(json: Text, out: Text, from: nat, pos: nat, mode: Mode) {
    from <= pos <= |json| && Minified(json) == out + Run(json[..pos], json[from..pos], json[pos..], mode)
  }

  /** `start` and `end` bound the next match from `pos` on. */
  ghost predicate IsMatch(json: Text, pos: nat, start: nat, end: nat) {
    && pos <= start < end <= |json| && end == start + TokenLength(json[start..])
    && IsQuiet(json, pos, start)
  }

  ghost predicate IsQuiet(json: Text, pos: nat, end: nat)
    requires end <= |json|
  {
    forall i :: pos <= i < end ==> TokenLength(json[i..]) == 0
  }

  method Minify(json: Text) returns (out: Text)
    ensures out == Minified(json)
  {
    hide Run, Remains;
    var inString, inBlock, inLine := false, false, false;
    var from, pos := 0, 0;
    var rc := json;
    out := [];
    var found, start, end := Find(json, 0);
    InvInitially(json);
    while found
      invariant OneFlag(inString, inBlock, inLine)
      invariant from <= pos <= |json| && rc == json[from..]
      invariant Remains(json, out, from, pos, ModeOf(inString, inBlock, inLine))
      invariant found ==> IsMatch(json, pos, start, end)
      invariant !found ==> IsQuiet(json, pos, |json|)
      decreases |json| - pos, found
    {
      var lc, token := json[..start], json[start..end];
      MatchStep(json, out, from, pos, ModeOf(inString, inBlock, inLine), start, end);
      if !inBlock && !inLine {
        var segment := lc[from..];
        if !inString {
          segment := StripText(segment);
        }
        out := out + segment;
      }
      var kept, copied;
      inString, inBlock, inLine, kept, copied := Switch(inString, inBlock, inLine, lc, token);
      if copied {
        out := out + token;
      }
      from := if kept then end - 1 else end;
      rc := json[from..];
      pos := end;
      found, start, end := Find(json, pos);
    }
    InvFinally(json, out, from, pos, ModeOf(inString, inBlock, inLine));
    out := out + rc;
  }

  lemma InvInitially(json: Text)
    ensures Remains(json, [], 0, 0, Plain)
  {
    assert json[..0] == [] && json[0..] == json && json[0..0] == [] && [] + Minified(json) == Minified(json);
  }

  lemma InvFinally(json: Text, out: Text, from: nat, pos: nat, mode: Mode)
    requires Remains(json, out, from, pos, mode) && IsQuiet(json, pos, |json|)
    ensures Minified(json) == out + json[from..]
  {
    RunTo(json, from, pos, |json|, mode);
    assert json[|json|..] == [] && json[from..|json|] == json[from..];
  }

  lemma MatchStep(json: Text, out: Text, from: nat, pos: nat, mode: Mode, start: nat, end: nat)
    requires Remains(json, out, from, pos, mode) && IsMatch(json, pos, start, end)
    ensures var token := json[start..end];
            IsToken(token)
            && Remains(json, out + Emitted(mode, json[..start][from..]) + (if IsCopied(mode, token) then token else []),
                   if IsKept(mode, token) then end - 1 else end, end, NextMode(mode, json[..start], token))
    ensures forall t: Text :: t + [] == t
  {
    hide Run;
    var token := json[start..end];
    AtToken(json, from, pos, start, mode);
    var rest := Run(json[..end], if IsKept(mode, token) then token else [], json[end..],
                    NextMode(mode, json[..start], token));
    assert IsKept(mode, token) ==> json[end - 1..end] == token;
    assert json[end..end] == [];
    Assemble(out, Emitted(mode, json[..start][from..]), if IsCopied(mode, token) then token else [], rest);
  }

  lemma Assemble(a: Text, b: Text, c: Text, d: Text)
    ensures a + (b + c + d) == a + b + c + d
  {
    Regrouped(a, b + c, d);
    Regrouped(a, b, c);
  }

  /** No token starts between `pos` and `start`. */
  lemma {:induction false} RunTo(json: Text, from: nat, pos: nat, start: nat, mode: Mode)
    requires from <= pos <= start <= |json|
    requires forall i :: pos <= i < start ==> TokenLength(json[i..]) == 0
    ensures Run(json[..pos], json[from..pos], json[pos..], mode) == Run(json[..start], json[from..start], json[start..], mode)
    decreases start
  {
    hide Run;
    if pos < start {
      RunTo(json, from, pos, start - 1, mode);
      Slices(json, from, start - 1, 1);
      Slices(json, start - 1, start - 1, 1);
      RunStep(json[..start - 1], json[from..start - 1], json[start - 1..start], json[start..], mode);
      assert json[from..start - 1] + json[start - 1..start] == json[from..start];
    }
  }

  lemma AtToken(json: Text, from: nat, pos: nat, start: nat, mode: Mode)
    requires from <= pos <= start <= |json| && TokenLength(json[start..]) > 0
    requires forall i :: pos <= i < start ==> TokenLength(json[i..]) == 0
    ensures var end := start + TokenLength(json[start..]);
            var token := json[start..end];
            IsToken(token) &&
            Run(json[..pos], json[from..pos], json[pos..], mode) ==
            Emitted(mode, json[..start][from..]) + (if IsCopied(mode, token) then token else [])
            + Run(json[..end], if IsKept(mode, token) then token else [], json[end..],
                  NextMode(mode, json[..start], token))
  {
    hide Run;
    var end := start + TokenLength(json[start..]);
    RunTo(json, from, pos, start, mode);
    Slices(json, from, start, end - start);
    RunStep(json[..start], json[from..start], json[start..end], json[end..], mode);
  }

  lemma Slices(s: Text, from: nat, start: nat, n: nat)
    requires from <= start <= start + n <= |s|
    ensures s[..start][from..] == s[from..start]
    ensures s[start..start + n] + s[start + n..] == s[start..]
    ensures s[..start] + s[start..start + n] == s[..start + n]
  {
  }

  // ---------------------------------------------------------------- white space

  /** The text without tabs, line ends, vertical tabs, form feeds and spaces. */
  function Tight(t: Text): Text {
    if t == [] then []
    else (if t[0] in {0x09, 0x0A, 0x0B, 0x0C, 0x0D, 0x20} then [] else [t[0]]) + Tight(t[1..])
  }

  lemma {:induction false} StripAppends(a: Text, c: Unit)
    ensures Strip(a + [c]) == Strip(a) + if IsStripped(c) then [] else [c]
  {
    if a != [] {
      assert (a + [c])[1..] == a[1..] + [c];
      StripAppends(a[1..], c);
    }
  }

  lemma {:induction false} PlainRun(before: Text, segment: Text, t: Text)
    requires 0x22 !in t && 0x2F !in t && t != [] && IsLineEnd(t[|t| - 1])
    ensures Run(before, segment, t, Plain) == Strip(segment) + Tight(t)
    decreases |t|
  {
    hide Run, Strip;
    var head, rest := t[..1], t[1..];
    assert t == head + rest && head == [t[0]];
    assert t[0] != SLASH && t[0] != QUOTE && (|t| >= 2 ==> t[1] != SLASH && t[1] == rest[0]);
    assert Tight(t) == (if t[0] in {0x09, 0x0A, 0x0B, 0x0C, 0x0D, 0x20} then [] else [t[0]]) + Tight(rest);
    RunStep(before, segment, head, rest, Plain);
    hide Tight, TokenLength;
    if rest == [] {
      assert Run(before + head, [], [], Plain) == [] by { RunOut(before + head, [], Plain); }
    } else {
      assert rest[|rest| - 1] == t[|t| - 1];
      if IsLineEnd(t[0]) {
        PlainRun(before + head, [], rest);
        assert Strip([]) == [] by { StripNothing(); }
      } else {
        PlainRun(before + head, segment + head, rest);
        StripAppends(segment, t[0]);
      }
    }
  }

  lemma RunOut(before: Text, segment: Text, mode: Mode)
    ensures Run(before, segment, [], mode) == segment
  {
  }

  lemma StripNothing()
    ensures Strip([]) == []
  {
  }

  /** In a text without strings and comments that ends with a line end, minifying leaves out the white space and nothing else. */
  lemma WhiteSpaceGoes(t: Text)
    requires 0x22 !in t && 0x2F !in t && t != [] && t[|t| - 1] in {0x0A, 0x0D}
    ensures Minified(t) == Tight(t)
  {
    PlainRun([], [], t);
    assert Strip([]) == [];
  }
}
