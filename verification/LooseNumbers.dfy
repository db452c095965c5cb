/** The numbers that the reader takes beyond those of the grammar: with digits of other scripts, and with parts left empty. */
module LooseNumbers {
  import opened Units
  import opened JsonValues
  import opened ReaderSpec
  import opened Numbers

  /** The zeros of the decimal digits that are one unit long, in Unicode 6.2. */
  const ZEROS: seq<Unit> := [
    0x0030, 0x0660, 0x06F0, 0x07C0, 0x0966, 0x09E6, 0x0A66, 0x0AE6, 0x0B66, 0x0BE6, 0x0C66, 0x0CE6, 0x0D66,
    0x0E50, 0x0ED0, 0x0F20, 0x1040, 0x1090, 0x17E0, 0x1810, 0x1946, 0x19D0, 0x1A80, 0x1A90, 0x1B50,
    0x1BB0, 0x1C40, 0x1C50, 0xA620, 0xA8D0, 0xA900, 0xA9D0, 0xAA50, 0xABF0, 0xFF10]

  /** A digit of one of the scripts. */
  datatype LooseDigit = LooseDigit(zero: Unit, value: int)

  datatype LooseExponent = LooseExponent(large: bool, sign: Option<bool>, digits: seq<LooseDigit>)

  /** A number as far as the reader goes: every part may lack digits. */
  datatype LooseNumber = LooseNumber(
    negative: bool,
    whole: seq<LooseDigit>,
    fraction: Option<seq<LooseDigit>>,
    exponent: Option<LooseExponent>)

  predicate AreDigits(ds: seq<LooseDigit>) {
    forall i :: 0 <= i < |ds| ==> ds[i].zero in ZEROS && 0 <= ds[i].value <= 9
  }

  predicate IsAnyDigit(c: Unit) {
    exists z :: z in ZEROS && z <= c <= z + 9
  }

  /** A number that begins with a minus or a digit. */
  predicate IsLoose(n: LooseNumber) {
    && (n.negative || n.whole != []) && AreDigits(n.whole)
    && (n.fraction.Some? ==> AreDigits(n.fraction.value))
    && (n.exponent.Some? ==> AreDigits(n.exponent.value.digits))
  }

  lemma ZeroAt(i: nat)
    requires i < |ZEROS|
    ensures ZEROS[i] <= 0xFF10 && (i == 0 <==> ZEROS[i] == 0x30)
    ensures i > 0 ==> i <= |DIGIT_BLOCKS| && ZEROS[i] == DIGIT_BLOCKS[i - 1] >= 0x0660
  {
  }

  lemma BlockAt(i: nat)
    requires i < |DIGIT_BLOCKS|
    ensures i + 1 < |ZEROS| && 0x0660 <= DIGIT_BLOCKS[i] == ZEROS[i + 1] <= 0xFF10
    ensures i + 1 < |DIGIT_BLOCKS| ==> DIGIT_BLOCKS[i] + 10 <= DIGIT_BLOCKS[i + 1]
  {
  }

  function UnitOf(d: LooseDigit): Unit {
    if 0 <= d.zero + d.value < 0x1_0000 then d.zero + d.value else 0xFFFD
  }

  function LooseText(ds: seq<LooseDigit>): (t: Text)
    ensures |t| == |ds| && forall i :: 0 <= i < |t| ==> t[i] == UnitOf(ds[i])
  {
    seq(|ds|, i requires 0 <= i < |ds| => UnitOf(ds[i]))
  }

  function FractionText(n: LooseNumber): Text
    requires IsLoose(n)
  {
    if n.fraction.Some? then [0x2E] + LooseText(n.fraction.value) else []
  }

  /** The letter and the sign of an exponent. */
  function MarkText(e: LooseExponent): Text {
    [if e.large then 0x45 else 0x65] + if e.sign.None? then [] else if e.sign.value then [0x2D] else [0x2B]
  }

  function ExponentText(n: LooseNumber): Text
    requires IsLoose(n)
  {
    if n.exponent.Some? then MarkText(n.exponent.value) + LooseText(n.exponent.value.digits) else []
  }

  function NumberText(n: LooseNumber): Text
    requires IsLoose(n)
  {
    (if n.negative then [0x2D] else []) + (LooseText(n.whole) + (FractionText(n) + ExponentText(n)))
  }

  function Base10(ds: seq<LooseDigit>): int {
    if ds == [] then 0 else 10 * Base10(ds[..|ds| - 1]) + ds[|ds| - 1].value
  }

  predicate AreAscii(ds: seq<LooseDigit>) {
    forall i :: 0 <= i < |ds| ==> ds[i].zero == 0x30
  }

  predicate OnlyAscii(n: LooseNumber) {
    && AreAscii(n.whole) && (n.fraction.Some? ==> AreAscii(n.fraction.value))
    && (n.exponent.Some? ==> AreAscii(n.exponent.value.digits))
  }

  /** The digits before the exponent. */
  function CountBefore(n: LooseNumber): int {
    |n.whole| + if n.fraction.Some? then |n.fraction.value| else 0
  }

  /**
   * What is read. With a point or an exponent: nothing without digits in front of the exponent or in it, nor, with fewer than
   * seventeen digits, with one of another script. Else: nothing without digits, or with fewer than twenty that are no `long`.
   */
  function Means(n: LooseNumber): Result<Json>
    requires IsLoose(n)
  {
    if n.fraction.Some? || n.exponent.Some? then
      if CountBefore(n) == 0 || (n.exponent.Some? && n.exponent.value.digits == []) || (CountBefore(n) < 17 && !OnlyAscii(n))
      then Err(NumberFormat) else Ok(Dec(NumberText(n)))
    else
      var value := if n.negative then -Base10(n.whole) else Base10(n.whole);
      if n.whole == [] || (|n.whole| < 20 && !(-0x8000_0000_0000_0000 <= value <= 0x7FFF_FFFF_FFFF_FFFF))
      then Err(NumberFormat) else Ok(Int(value))
  }

  /** What follows is no further part of the number. */
  predicate EndsHere(n: LooseNumber, rest: Text) {
    rest != [] ==>
      && !IsAnyDigit(rest[0])
      && (n.exponent.None? ==> rest[0] != 0x45 && rest[0] != 0x65 && (n.fraction.None? ==> rest[0] != 0x2E))
      && (n.exponent.Some? && n.exponent.value.sign.None? && n.exponent.value.digits == [] ==> rest[0] != 0x2B && rest[0] != 0x2D)
  }

  // ---------------------------------------------------------------- digits

  lemma {:induction false} BlocksApart(i: nat, k: nat)
    requires i < k < |DIGIT_BLOCKS|
    ensures DIGIT_BLOCKS[i] + 10 <= DIGIT_BLOCKS[k]
    decreases k - i
  {
    hide ZEROS, DIGIT_BLOCKS;
    BlockAt(i);
    if i + 1 < k {
      BlocksApart(i + 1, k);
    }
  }

  lemma {:induction false} BlockFound(c: Unit, i: nat, k: nat)
    requires i <= k < |DIGIT_BLOCKS| && DIGIT_BLOCKS[k] <= c <= DIGIT_BLOCKS[k] + 9
    ensures BlockDigit(c, i) == c - DIGIT_BLOCKS[k]
    decreases k - i
  {
    hide ZEROS, DIGIT_BLOCKS;
    if i < k {
      BlocksApart(i, k);
      BlockFound(c, i + 1, k);
    }
  }

  /** The value of a digit is its distance from the zero of its script. */
  lemma DigitIs(z: Unit, d: int)
    requires z in ZEROS && 0 <= d <= 9
    ensures z + d < 0x1_0000 && DigitValue(z + d) == d && IsDigit(z + d)
    ensures z + d < 0x80 <==> z == 0x30
  {
    hide ZEROS, DIGIT_BLOCKS, BlockDigit;
    var i :| 0 <= i < |ZEROS| && ZEROS[i] == z;
    ZeroAt(i);
    if i > 0 {
      BlockFound(z + d, 0, i - 1);
    }
  }

  lemma {:induction false} BlockIsAny(c: Unit, i: nat)
    requires i <= |DIGIT_BLOCKS| && BlockDigit(c, i) >= 0
    ensures IsAnyDigit(c)
    decreases |DIGIT_BLOCKS| - i
  {
    hide ZEROS, DIGIT_BLOCKS;
    if i < |DIGIT_BLOCKS| {
      BlockAt(i);
      if DIGIT_BLOCKS[i] <= c <= DIGIT_BLOCKS[i] + 9 {
        assert ZEROS[i + 1] in ZEROS;
      } else {
        BlockIsAny(c, i + 1);
      }
    }
  }

  lemma DigitsOnly(c: Unit)
    ensures IsDigit(c) <==> IsAnyDigit(c)
  {
    ZeroAt(0);
    hide ZEROS, DIGIT_BLOCKS, BlockDigit;
    if z :| z in ZEROS && z <= c <= z + 9 {
      DigitIs(z, c - z);
    }
    if IsDigit(c) {
      if c <= ZERO + 9 {
        assert ZEROS[0] in ZEROS;
      } else {
        BlockIsAny(c, 0);
      }
    }
  }

  lemma LooseUnits(ds: seq<LooseDigit>)
    requires AreDigits(ds)
    ensures AllDigits(LooseText(ds))
    ensures forall i :: 0 <= i < |ds| ==> (LooseText(ds)[i] < 0x80 <==> ds[i].zero == 0x30) && DigitValue(LooseText(ds)[i]) == ds[i].value
  {
    hide DigitValue, IsDigit, ZEROS, DIGIT_BLOCKS, LooseText;
    var t := LooseText(ds);
    forall i | 0 <= i < |ds|
      ensures IsDigit(t[i]) && (t[i] < 0x80 <==> ds[i].zero == 0x30) && DigitValue(t[i]) == ds[i].value
    {
      DigitIs(ds[i].zero, ds[i].value);
    }
  }

  lemma {:induction false} LooseValue(ds: seq<LooseDigit>)
    requires AreDigits(ds)
    ensures DigitsValue(LooseText(ds)) == Base10(ds)
  {
    if ds != [] {
      LooseUnits(ds);
      hide DigitValue, IsDigit, ZEROS, DIGIT_BLOCKS;
      LooseValue(ds[..|ds| - 1]);
      assert LooseText(ds)[..|ds| - 1] == LooseText(ds[..|ds| - 1]);
    }
  }

  lemma LooseDigits(ds: seq<LooseDigit>)
    requires AreDigits(ds)
    ensures AllDigits(LooseText(ds)) && DigitsValue(LooseText(ds)) == Base10(ds)
    ensures AllAscii(LooseText(ds)) <==> AreAscii(ds)
  {
    hide DigitValue, IsDigit, ZEROS, DIGIT_BLOCKS, LooseText, DigitsValue, Base10;
    LooseUnits(ds);
    LooseValue(ds);
  }

  // ---------------------------------------------------------------- scanning

  lemma NoDigitAhead(n: LooseNumber, rest: Text)
    requires EndsHere(n, rest)
    ensures !StartsWithDigit(rest)
  {
    if rest != [] {
      DigitsOnly(rest[0]);
    }
  }

  lemma MarksAreNoDigits()
    ensures !IsDigit(0x2E) && !IsDigit(0x2D) && !IsDigit(0x2B) && !IsDigit(0x45) && !IsDigit(0x65)
  {
  }

  lemma ExponentTaken(n: LooseNumber, rest: Text)
    requires IsLoose(n) && EndsHere(n, rest)
    ensures TakeExponent(ExponentText(n) + rest) == (ExponentText(n), rest)
    ensures var s := ExponentText(n) + rest;
            !StartsWithDigit(s) && (n.fraction.None? ==> !StartsWith(s, DOT))
  {
    NoDigitAhead(n, rest);
    MarksAreNoDigits();
    var s := ExponentText(n) + rest;
    hide IsDigit, IsAnyDigit, ZEROS;
    if n.exponent.None? {
      assert s == rest;
    } else {
      var e := n.exponent.value;
      var mark, digits := MarkText(e), LooseText(e.digits);
      LooseDigits(e.digits);
      hide LooseText, AreDigits, DigitsValue, Base10, AllAscii, AreAscii;
      Regrouped(mark, digits, rest);
      assert s == mark + (digits + rest);
      assert s[0] == mark[0] && IsExponentMark(s[0]);
      assert |mark| == 2 ==> s[1] == mark[1];
      assert |mark| == 1 && digits != [] ==> s[1] == digits[0] && IsDigit(digits[0]);
      assert |mark| == 1 && digits == [] && rest != [] ==> s[1] == rest[0];
      assert MarkLength(s) == |mark|;
      assert s[|mark|..] == digits + rest && s[..|mark|] == mark;
      TakeDigitsOf(digits, rest);
    }
  }

  function Parts(n: LooseNumber): Numbers.NumberText
    requires IsLoose(n)
  {
    Numbers.NumberText(if n.negative then [0x2D] else [], LooseText(n.whole), FractionText(n), ExponentText(n))
  }

  lemma LooseScanned(n: LooseNumber, rest: Text)
    requires IsLoose(n) && EndsHere(n, rest)
    ensures Parts(n).ToText() == NumberText(n)
    ensures ScanNumber(NumberText(n) + rest) == (Parts(n), rest)
    ensures StartsNumber(NumberText(n) + rest)
  {
    var p := Parts(n);
    ExponentTaken(n, rest);
    var s3 := p.exponent + rest;
    var s2 := p.fraction + s3;
    var s1 := p.whole + s2;
    PartsRegrouped(p.sign, p.whole, p.fraction, p.exponent, rest);
    LooseDigits(n.whole);
    MarksAreNoDigits();
    FractionTaken(n, s3);
    hide LooseText, ExponentText, FractionText, AreDigits, DigitsValue, Base10, AllAscii, AreAscii, IsDigit, EndsHere;
    TakeDigitsOf(p.whole, s2);
    PartsStart(p.sign, s1);
    PartsStart(p.whole, s2);
    if n.negative {
      assert (p.sign + s1)[1..] == s1;
    } else {
      assert p.sign + s1 == s1 && s1[0] == p.whole[0];
      assert IsDigit(p.whole[0]);
    }
  }

  lemma FractionTaken(n: LooseNumber, s3: Text)
    requires IsLoose(n) && !StartsWithDigit(s3) && (n.fraction.None? ==> !StartsWith(s3, DOT))
    ensures TakeFraction(FractionText(n) + s3) == (FractionText(n), s3) && !StartsWithDigit(FractionText(n) + s3)
  {
    MarksAreNoDigits();
    if n.fraction.Some? {
      LooseDigits(n.fraction.value);
      assert FractionText(n)[1..] == LooseText(n.fraction.value);
      assert (FractionText(n) + s3)[0] == DOT;
    } else {
      assert FractionText(n) + s3 == s3;
    }
    hide LooseText, AreDigits, DigitsValue, Base10, AllAscii, AreAscii, IsDigit;
    TakeFractionOf(FractionText(n), s3);
  }

  // ---------------------------------------------------------------- outcomes

  lemma AsciiOfBoth(a: Text, b: Text)
    ensures AllAscii(a + b) <==> AllAscii(a) && AllAscii(b)
  {
    assert forall i :: 0 <= i < |a| ==> a[i] == (a + b)[i];
    assert forall i :: 0 <= i < |b| ==> b[i] == (a + b)[|a| + i];
  }

  lemma AsciiText(n: LooseNumber)
    requires IsLoose(n)
    ensures AllAscii(NumberText(n)) <==> OnlyAscii(n)
  {
    hide LooseText, AreDigits, AreAscii, DigitsValue, Base10, AllAscii, AllDigits, ZEROS, MarkText;
    LooseDigits(n.whole);
    if n.fraction.Some? {
      LooseDigits(n.fraction.value);
      AsciiOfBoth([0x2E], LooseText(n.fraction.value));
    }
    if n.exponent.Some? {
      LooseDigits(n.exponent.value.digits);
      AsciiOfBoth(MarkText(n.exponent.value), LooseText(n.exponent.value.digits));
    }
    FewAscii(n);
    AsciiOfBoth(FractionText(n), ExponentText(n));
    AsciiOfBoth(LooseText(n.whole), FractionText(n) + ExponentText(n));
    AsciiOfBoth(if n.negative then [0x2D] else [], LooseText(n.whole) + (FractionText(n) + ExponentText(n)));
  }

  lemma FewAscii(n: LooseNumber)
    ensures AllAscii([]) && AllAscii([0x2D]) && AllAscii([0x2E]) && (n.exponent.Some? ==> AllAscii(MarkText(n.exponent.value)))
  {
  }

  lemma LastOfExponent(n: LooseNumber)
    requires IsLoose(n) && n.exponent.Some?
    ensures var t := ExponentText(n); t != [] && (IsDigit(t[|t| - 1]) <==> n.exponent.value.digits != [])
  {
    var e := n.exponent.value;
    LooseDigits(e.digits);
    MarksAreNoDigits();
    hide LooseText, AreDigits, AreAscii, DigitsValue, Base10, IsDigit;
    var t, mark, digits := ExponentText(n), MarkText(e), LooseText(e.digits);
    assert t[|t| - 1] == if digits == [] then mark[|mark| - 1] else digits[|digits| - 1];
  }

  lemma LooseMeans(n: LooseNumber)
    requires IsLoose(n) && Parts(n).ToText() == NumberText(n)
    ensures NumberOf(Parts(n)) == Means(n)
  {
    hide LooseText, AreDigits, AreAscii, DigitsValue, Base10, IsDigit, AllAscii, MarkText, AllDigits, ZEROS, NumberText, OnlyAscii;
    LooseDigits(n.whole);
    AsciiText(n);
    PartLengths(n);
    if n.exponent.Some? {
      LastOfExponent(n);
    }
    hide ExponentText, FractionText, IsLoose;
  }

  lemma PartLengths(n: LooseNumber)
    requires IsLoose(n)
    ensures |FractionText(n)| == if n.fraction.Some? then 1 + |n.fraction.value| else 0
    ensures ExponentText(n) == [] <==> n.exponent.None?
  {
    hide AreDigits, ZEROS;
  }

  /** A number is read as this says, whatever its digits and its parts. */
  lemma LooseNumberRead(n: LooseNumber, rest: Text)
    requires IsLoose(n) && EndsHere(n, rest)
    ensures StartsNumber(NumberText(n) + rest)
    ensures ReadNumber(NumberText(n) + rest) == if Means(n).Ok? then Ok((Means(n).value, rest)) else Err(Means(n).error)
  {
    hide NumberText, Means, NumberOf, Parts, ScanNumber, IsLoose, EndsHere, StartsNumber;
    LooseScanned(n, rest);
    LooseMeans(n);
  }
}
