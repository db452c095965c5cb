/** The numbers of the reader and of `Number.toString`. */
module Numbers {
  import opened Units
  import opened JsonValues

  const LONG_MIN := -0x8000_0000_0000_0000
  const LONG_MAX := 0x7FFF_FFFF_FFFF_FFFF

  predicate AllDigits(s: Text) {
    forall i :: 0 <= i < |s| ==> IsDigit(s[i])
  }

  predicate AllAscii(s: Text) {
    forall i :: 0 <= i < |s| ==> s[i] < 0x80
  }

  predicate StartsWith(s: Text, c: Unit) {
    s != [] && s[0] == c
  }

  predicate StartsWithDigit(s: Text) {
    s != [] && IsDigit(s[0])
  }

  // ---------------------------------------------------------------- scanning

  /** A number text cut into the four parts `readNumber` goes through; fraction and exponent keep their marks. */
  datatype NumberText = NumberText(sign: Text, whole: Text, fraction: Text, exponent: Text) {
    function ToText(): Text {
      sign + (whole + (fraction + exponent))
    }

    /** The parts as the grammar of a complete number has them. */
    predicate WellShaped() {
      && (sign == [] || sign == [MINUS])
      && AllDigits(whole)
      && (fraction != [] ==> fraction[0] == DOT && AllDigits(fraction[1..]))
      && (exponent != [] ==> IsExponent(exponent))
      && (sign != [] || whole != [])
    }

    /** The digits before the exponent. */
    function DigitCount(): nat {
      |whole| + (if fraction == [] then 0 else |fraction| - 1)
    }

    predicate IsFloatingPoint() {
      fraction != [] || exponent != []
    }
  }

  predicate IsSign(c: Unit) {
    c == PLUS || c == MINUS
  }

  predicate IsExponentMark(c: Unit) {
    c == LOWER_E || c == UPPER_E
  }

  /** The length of the mark of an exponent with its sign. */
  function MarkLength(s: Text): (n: nat)
    requires s != []
    ensures 1 <= n <= |s|
  {
    if |s| > 1 && IsSign(s[1]) then 2 else 1
  }

  predicate IsExponent(e: Text)
    requires e != []
  {
    IsExponentMark(e[0]) && e[MarkLength(e)..] != [] && AllDigits(e[MarkLength(e)..])
  }

  /** `addDigits`: the digits `s` starts with, and the rest. */
  function TakeDigits(s: Text): (r: (Text, Text))
    ensures r.0 + r.1 == s
    ensures AllDigits(r.0) && !StartsWithDigit(r.1)
  {
    if StartsWithDigit(s) then
      var (digits, rest) := TakeDigits(s[1..]);
      Regrouped([s[0]], digits, rest);
      ([s[0]] + digits, rest)
    else ([], s)
  }

  function TakeSign(s: Text): (r: (Text, Text))
    ensures r.0 + r.1 == s
  {
    if StartsWith(s, MINUS) then
      assert s == [MINUS] + s[1..];
      ([MINUS], s[1..])
    else ([], s)
  }

  function TakeFraction(s: Text): (r: (Text, Text))
    ensures r.0 + r.1 == s
  {
    if StartsWith(s, DOT) then
      var (digits, rest) := TakeDigits(s[1..]);
      Regrouped([DOT], digits, rest);
      ([DOT] + digits, rest)
    else ([], s)
  }

  function TakeExponent(s: Text): (r: (Text, Text))
    ensures r.0 + r.1 == s
  {
    if s != [] && IsExponentMark(s[0]) then
      var n := MarkLength(s);
      var (digits, rest) := TakeDigits(s[n..]);
      Regrouped(s[..n], digits, rest);
      (s[..n] + digits, rest)
    else ([], s)
  }

  lemma PartsRegrouped(a: Text, b: Text, c: Text, d: Text, rest: Text)
    ensures (a + (b + (c + d))) + rest == a + (b + (c + (d + rest)))
  {
    Regrouped(c, d, rest);
    Regrouped(b, c + d, rest);
    Regrouped(a, b + (c + d), rest);
  }

  /** The scan of `readNumber`. */
  function ScanNumber(s: Text): (r: (NumberText, Text))
    ensures r.0.ToText() + r.1 == s
  {
    var (sign, s1) := TakeSign(s);
    var (whole, s2) := TakeDigits(s1);
    var (fraction, s3) := TakeFraction(s2);
    var (exponent, rest) := TakeExponent(s3);
    PartsRegrouped(sign, whole, fraction, exponent, rest);
    (NumberText(sign, whole, fraction, exponent), rest)
  }

  // ---------------------------------------------------------------- values

  /** The value of a run of decimal digits. */
  function DigitsValue(s: Text): (v: int)
  {
    if s == [] then 0 else 10 * DigitsValue(s[..|s| - 1]) + DigitValue(s[|s| - 1])
  }

  predicate IsLong(n: int) {
    LONG_MIN <= n <= LONG_MAX
  }

  /** A `long` result: 64 bits, two's complement. */
  function Wrap(n: int): (w: int)
    ensures LONG_MIN <= w <= LONG_MAX
    ensures LONG_MIN <= n <= LONG_MAX ==> w == n
  {
    (n - LONG_MIN) % 0x1_0000_0000_0000_0000 + LONG_MIN
  }

  /** `Long.parseLong` and `Integer.parseInt`, with the range of the type. */
  function ParseInteger(t: Text, min: int, max: int): Option<int> {
    var digits := if t != [] && (t[0] == MINUS || t[0] == PLUS) then t[1..] else t;
    var n := if t != [] && t[0] == MINUS then -DigitsValue(digits) else DigitsValue(digits);
    if digits != [] && AllDigits(digits) && min <= n <= max then Some(n) else None
  }

  /** `Long.valueOf` on fewer than 20 digits, `new BigInteger` on more. */
  function IntegerOf(negative: bool, digits: Text): Result<Json> {
    var n := if negative then -DigitsValue(digits) else DigitsValue(digits);
    if digits == [] then Err(NumberFormat)
    else if |digits| < 20 && !(LONG_MIN <= n <= LONG_MAX) then Err(NumberFormat)
    else Ok(Int(n))
  }

  /** `Double.valueOf` on fewer than 17 digits, which takes ASCII digits only, `new BigDecimal` on more. */
  function DecimalOf(n: NumberText): Result<Json> {
    if n.DigitCount() == 0 then Err(NumberFormat)
    else if n.exponent != [] && !IsDigit(n.exponent[|n.exponent| - 1]) then Err(NumberFormat)
    else if n.DigitCount() < 17 && !AllAscii(n.ToText()) then Err(NumberFormat)
    else Ok(Dec(n.ToText()))
  }

  function NumberOf(n: NumberText): Result<Json> {
    if n.IsFloatingPoint() then DecimalOf(n) else IntegerOf(n.sign != [], n.whole)
  }

  predicate StartsNumber(s: Text) {
    s != [] && (IsDigit(s[0]) || s[0] == MINUS)
  }

  /** `readNumber`: the number at the start of `s` and what follows it. */
  function ReadNumber(s: Text): (r: Result<(Json, Text)>)
    requires StartsNumber(s)
    ensures r.Ok? ==> |r.value.1| < |s|
  {
    var (n, rest) := ScanNumber(s);
    assert n.sign != [] || n.whole != [];
    var v :- NumberOf(n);
    Ok((v, rest))
  }

  // ---------------------------------------------------------------- printing

  /** The decimal digits of `n`, most significant first. */
  function Digits(n: nat): (t: Text)
    ensures t != [] && AllAscii(t) && AllDigits(t)
  {
    if n < 10 then [ZERO + n] else Digits(n / 10) + [ZERO + n % 10]
  }

  function IntText(n: int): NumberText {
    if n < 0 then NumberText([MINUS], Digits(-n), [], []) else NumberText([], Digits(n), [], [])
  }

  /** `Long.toString` and `BigInteger.toString`. */
  function PrintInt(n: int): Text {
    IntText(n).ToText()
  }

  /** A finite non-integer number, as `Double.toString` and `BigDecimal.toString` lay it out. */
  ghost predicate IsFinite(literal: Text) {
    exists n: NumberText :: FiniteParts(n) && n.ToText() == literal
  }

  predicate FiniteParts(n: NumberText) {
    && n.WellShaped() && n.IsFloatingPoint() && n.whole != [] && |n.fraction| != 1
    && AllAscii(n.ToText())
  }

  /** `NaN`, `Infinity` and `-Infinity`, the texts of the other `double` values. */
  predicate IsNonFinite(literal: Text) {
    literal in [NAN, INFINITY, [MINUS] + INFINITY]
  }

  const NAN: Text := [0x4E, 0x61, 0x4E]
  const INFINITY: Text := [0x49, 0x6E, 0x66, 0x69, 0x6E, 0x69, 0x74, 0x79]

  lemma NonFiniteSpelled(t: Text)
    ensures IsNonFinite(t) <==> t in {Chars("NaN"), Chars("Infinity"), Chars("-Infinity")}
  {
    assert NAN == Chars("NaN") && INFINITY == Chars("Infinity") && [MINUS] + INFINITY == Chars("-Infinity");
  }

  /** What may follow a complete number without becoming part of it. */
  predicate EndsNumber(rest: Text) {
    rest != [] ==> !IsDigit(rest[0]) && rest[0] != DOT && !IsExponentMark(rest[0])
  }

  /** The integers that the reader takes back: those a `long` holds and those of twenty digits or more. */
  predicate ReadableInt(n: int) {
    LONG_MIN <= n <= LONG_MAX || |Digits(if n < 0 then -n else n)| >= 20
  }

  // ---------------------------------------------------------------- scanning what was laid out

  lemma {:induction false} TakeDigitsOf(digits: Text, rest: Text)
    requires AllDigits(digits) && !StartsWithDigit(rest)
    ensures TakeDigits(digits + rest) == (digits, rest)
  {
    if digits == [] {
      assert digits + rest == rest;
    } else {
      assert (digits + rest)[1..] == digits[1..] + rest;
      TakeDigitsOf(digits[1..], rest);
      assert digits == [digits[0]] + digits[1..];
    }
  }

  lemma TakeFractionOf(fraction: Text, rest: Text)
    requires fraction != [] ==> fraction[0] == DOT && AllDigits(fraction[1..])
    requires !StartsWithDigit(rest) && (fraction == [] ==> !StartsWith(rest, DOT))
    ensures TakeFraction(fraction + rest) == (fraction, rest)
  {
    if fraction == [] {
      assert fraction + rest == rest;
    } else {
      assert (fraction + rest)[1..] == fraction[1..] + rest;
      TakeDigitsOf(fraction[1..], rest);
      assert fraction == [DOT] + fraction[1..];
    }
  }

  lemma TakeExponentOf(exponent: Text, rest: Text)
    requires exponent != [] ==> IsExponent(exponent)
    requires !StartsWithDigit(rest) && (exponent == [] && rest != [] ==> !IsExponentMark(rest[0]))
    ensures TakeExponent(exponent + rest) == (exponent, rest)
  {
    var s := exponent + rest;
    if exponent == [] {
      assert s == rest;
    } else {
      var n := MarkLength(exponent);
      assert s[0] == exponent[0] && (|exponent| > 1 && s[1] == exponent[1]);
      assert MarkLength(s) == n;
      assert s[n..] == exponent[n..] + rest;
      TakeDigitsOf(exponent[n..], rest);
      assert s[..n] == exponent[..n];
      assert exponent == exponent[..n] + exponent[n..];
    }
  }

  /** A complete number with any text behind it that does not continue it is scanned as it is. */
  lemma ScanComplete(n: NumberText, rest: Text)
    requires n.WellShaped() && EndsNumber(rest)
    ensures ScanNumber(n.ToText() + rest) == (n, rest)
    ensures StartsNumber(n.ToText())
  {
    ScanStops(n, rest);
    SignOf(n, n.whole + (n.fraction + n.exponent));
  }

  /** What stands behind a number text is no further part of it. */
  predicate StopsAt(n: NumberText, rest: Text) {
    rest != [] ==>
      && !IsDigit(rest[0])
      && (n.exponent == [] ==> !IsExponentMark(rest[0]) && (n.fraction == [] ==> rest[0] != DOT))
  }

  lemma ScanStops(n: NumberText, rest: Text)
    requires n.WellShaped() && StopsAt(n, rest)
    ensures ScanNumber(n.ToText() + rest) == (n, rest)
  {
    var s3 := n.exponent + rest;
    var s2 := n.fraction + s3;
    var s1 := n.whole + s2;
    PartsRegrouped(n.sign, n.whole, n.fraction, n.exponent, rest);
    TakeExponentOf(n.exponent, rest);
    assert !StartsWithDigit(s3) && (n.fraction == [] ==> !StartsWith(s3, DOT)) by { PartsStart(n.exponent, rest); }
    TakeFractionOf(n.fraction, s3);
    assert !StartsWithDigit(s2) by { PartsStart(n.fraction, s3); }
    TakeDigitsOf(n.whole, s2);
    SignOf(n, s1);
  }

  lemma PartsStart(part: Text, rest: Text)
    ensures part == [] ==> part + rest == rest
    ensures part != [] ==> part + rest != [] && (part + rest)[0] == part[0]
  {
    if part == [] {
      assert part + rest == rest;
    }
  }

  lemma SignOf(n: NumberText, s1: Text)
    requires n.WellShaped() && n.whole <= s1
    ensures TakeSign(n.sign + s1) == (n.sign, s1)
    ensures StartsNumber(n.ToText())
  {
    PartsStart(n.whole, n.fraction + n.exponent);
    PartsStart(n.sign, s1);
    if n.sign == [] {
      assert s1[0] == n.whole[0] && n.whole[0] != MINUS;
      assert n.ToText() == n.whole + (n.fraction + n.exponent);
    } else {
      assert (n.sign + s1)[1..] == s1;
    }
  }

  // ---------------------------------------------------------------- reading back what was printed

  lemma {:induction false} DigitsHaveTheirValue(n: nat)
    ensures DigitsValue(Digits(n)) == n
  {
    if n >= 10 {
      DigitsHaveTheirValue(n / 10);
      assert Digits(n)[..|Digits(n)| - 1] == Digits(n / 10);
    } else {
      assert Digits(n)[..0] == [];
    }
  }

  /** The integer printed, then read with any text behind it that does not continue the number. */
  lemma ReadPrintedInt(n: int, rest: Text)
    requires EndsNumber(rest)
    ensures StartsNumber(PrintInt(n)) && StartsNumber(PrintInt(n) + rest)
    ensures ReadNumber(PrintInt(n) + rest) == if ReadableInt(n) then Ok((Int(n), rest)) else Err(NumberFormat)
  {
    ScanComplete(IntText(n), rest);
    ValueOfIntText(n);
    assert PrintInt(n) != [];
  }

  lemma ValueOfIntText(n: int)
    ensures NumberOf(IntText(n)) == if ReadableInt(n) then Ok(Int(n)) else Err(NumberFormat)
  {
    var magnitude := if n < 0 then -n else n;
    DigitsHaveTheirValue(magnitude);
    var digits := Digits(magnitude);
    assert NumberOf(IntText(n)) == IntegerOf(n < 0, digits);
  }

  /** A finite non-integer number printed, then read. */
  lemma ReadPrintedDecimal(literal: Text, rest: Text)
    requires IsFinite(literal) && EndsNumber(rest)
    ensures StartsNumber(literal) && StartsNumber(literal + rest)
    ensures ReadNumber(literal + rest) == Ok((Dec(literal), rest))
  {
    var n: NumberText :| FiniteParts(n) && n.ToText() == literal;
    ScanComplete(n, rest);
    FiniteValue(n);
    assert literal != [];
  }

  lemma FiniteValue(n: NumberText)
    requires FiniteParts(n)
    ensures NumberOf(n) == Ok(Dec(n.ToText()))
  {
    if n.exponent != [] {
      var digits := n.exponent[MarkLength(n.exponent)..];
      assert n.exponent[|n.exponent| - 1] == digits[|digits| - 1];
    }
  }
}
