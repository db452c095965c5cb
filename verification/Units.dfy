/** Text as the Java program sees it: sequences of UTF-16 code units, lone surrogates included. */
module Units {
  datatype Option<+T> = None | Some(value: T)

  type Unit = c: int | 0 <= c < 0x1_0000

  type Text = seq<Unit>

  const TAB: Unit := 0x09
  const NEWLINE: Unit := 0x0A
  const FORM_FEED: Unit := 0x0C
  const RETURN: Unit := 0x0D
  const SPACE: Unit := 0x20
  const QUOTE: Unit := 0x22
  const STAR: Unit := 0x2A
  const PLUS: Unit := 0x2B
  const COMMA: Unit := 0x2C
  const MINUS: Unit := 0x2D
  const DOT: Unit := 0x2E
  const SLASH: Unit := 0x2F
  const ZERO: Unit := 0x30
  const COLON: Unit := 0x3A
  const LOWER_E: Unit := 0x65
  const LOWER_U: Unit := 0x75
  const UPPER_E: Unit := 0x45
  const OPEN_BRACKET: Unit := 0x5B
  const BACKSLASH: Unit := 0x5C
  const CLOSE_BRACKET: Unit := 0x5D
  const OPEN_BRACE: Unit := 0x7B
  const CLOSE_BRACE: Unit := 0x7D

  /** `CharacterIterator.DONE`: what the iterator shows past the end, and also a legal code unit. */
  const DONE: Unit := 0xFFFF

  /** First code units of the decimal-digit blocks beyond ASCII that `Character.isDigit(char)` accepts (Unicode 6.2). */
  const DIGIT_BLOCKS: seq<Unit> := [
    0x0660, 0x06F0, 0x07C0, 0x0966, 0x09E6, 0x0A66, 0x0AE6, 0x0B66, 0x0BE6, 0x0C66, 0x0CE6, 0x0D66,
    0x0E50, 0x0ED0, 0x0F20, 0x1040, 0x1090, 0x17E0, 0x1810, 0x1946, 0x19D0, 0x1A80, 0x1A90, 0x1B50,
    0x1BB0, 0x1C40, 0x1C50, 0xA620, 0xA8D0, 0xA900, 0xA9D0, 0xAA50, 0xABF0, 0xFF10]

  /** The digit value found in the blocks from index `i` on, or -1. */
  function BlockDigit(c: Unit, i: nat): (d: int)
    requires i <= |DIGIT_BLOCKS|
    ensures -1 <= d <= 9
    decreases |DIGIT_BLOCKS| - i
  {
    if i == |DIGIT_BLOCKS| then -1
    else if DIGIT_BLOCKS[i] <= c <= DIGIT_BLOCKS[i] + 9 then c - DIGIT_BLOCKS[i]
    else BlockDigit(c, i + 1)
  }

  /** `Character.digit(c, 10)`. */
  function DigitValue(c: Unit): (d: int)
    ensures -1 <= d <= 9
  {
    if ZERO <= c <= ZERO + 9 then c - ZERO
    else if c < 0x0660 then -1
    else BlockDigit(c, 0)
  }

  predicate IsDigit(c: Unit) {
    DigitValue(c) >= 0
  }

  /** `Character.isWhitespace(char)`. */
  predicate IsWhitespace(c: Unit) {
    || 0x09 <= c <= 0x0D
    || 0x1C <= c <= 0x20
    || c == 0x1680 || c == 0x180E
    || (0x2000 <= c <= 0x200A && c != 0x2007)
    || c == 0x2028 || c == 0x2029 || c == 0x205F || c == 0x3000
  }

  lemma OutsideBlocks(c: Unit, i: nat)
    requires i <= |DIGIT_BLOCKS|
    requires forall k :: i <= k < |DIGIT_BLOCKS| ==> !(DIGIT_BLOCKS[k] <= c <= DIGIT_BLOCKS[k] + 9)
    ensures BlockDigit(c, i) == -1
    decreases |DIGIT_BLOCKS| - i
  {
  }

  lemma WhitespaceIsNoDigit(c: Unit)
    requires IsWhitespace(c)
    ensures !IsDigit(c)
  {
    if c >= 0x0660 {
      OutsideBlocks(c, 0);
    }
  }

  lemma DoneIsNoDigit()
    ensures !IsDigit(DONE)
  {
    OutsideBlocks(DONE, 0);
  }

  /** The units of a word of characters that are one unit long. */
  function Chars(word: string): (t: Text)
    ensures |t| == |word| && forall i :: 0 <= i < |t| && word[i] as int < 0x1_0000 ==> t[i] == word[i] as int
  {
    seq(|word|, i requires 0 <= i < |word| => if word[i] as int < 0x1_0000 then word[i] as int else 0xFFFD)
  }

  lemma Regrouped<T>(a: seq<T>, b: seq<T>, c: seq<T>)
    ensures a + (b + c) == a + b + c
  {
  }
}
