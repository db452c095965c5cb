/**
 * The texts of RFC 8259, spelled out unit by unit from its grammar, and what the reader makes of them: the value that the
 * grammar gives, in every spelling that it allows.
 */
module JsonGrammar {
  import opened Units
  import opened JsonValues
  import opened Numbers
  import opened ReaderSpec
  import R = RoundTrip

  // ---------------------------------------------------------------- the grammar

  /** White space, section 2 of RFC 8259. */
  predicate AreSpaces(t: Text) {
    forall i :: 0 <= i < |t| ==> t[i] in {0x09, 0x0A, 0x0D, 0x20}
  }

  /** The sixteen digits from 0 to f, in small letters and in capitals. */
  const HEX_SMALL: Text :=
    [0x30, 0x31, 0x32, 0x33, 0x34, 0x35, 0x36, 0x37, 0x38, 0x39, 0x61, 0x62, 0x63, 0x64, 0x65, 0x66]
  const HEX_LARGE: Text :=
    [0x30, 0x31, 0x32, 0x33, 0x34, 0x35, 0x36, 0x37, 0x38, 0x39, 0x41, 0x42, 0x43, 0x44, 0x45, 0x46]

  type HexDigit = d: int | 0 <= d < 16

  /** A digit, and whether it is written in capitals. */
  datatype HexSpelling = HexSpelling(d: HexDigit, large: bool) {
    function Spelled(): Unit {
      if large then HEX_LARGE[d] else HEX_SMALL[d]
    }
  }

  /** One character of a string, section 7: as it is, by one letter, or by four hexadecimal digits. */
  datatype Character =
    | Plain(c: Unit)
    | Letter(c: Unit)
    | Hex(a: HexSpelling, b: HexSpelling, c4: HexSpelling, d: HexSpelling)

  predicate IsCharacter(x: Character) {
    match x
    case Plain(c) => c >= 0x20 && c != 0x22 && c != 0x5C
    case Letter(c) => c in {0x22, 0x5C, 0x2F, 0x62, 0x66, 0x6E, 0x72, 0x74}
    case Hex(_, _, _, _) => true
  }

  function CharacterText(x: Character): Text {
    match x
    case Plain(c) => [c]
    case Letter(c) => [0x5C, c]
    case Hex(a, b, c, d) => [0x5C, 0x75, a.Spelled(), b.Spelled(), c.Spelled(), d.Spelled()]
  }

  /** The unit that a character stands for. */
  function Denoted(x: Character): Unit {
    match x
    case Plain(c) => c
    case Letter(c) =>
      if c == 0x62 then 0x08 else if c == 0x66 then 0x0C else if c == 0x6E then 0x0A
      else if c == 0x72 then 0x0D else if c == 0x74 then 0x09 else c
    case Hex(a, b, c, d) => a.d * 4096 + b.d * 256 + c.d * 16 + d.d
  }

  predicate AreCharacters(cs: seq<Character>) {
    forall i :: 0 <= i < |cs| ==> IsCharacter(cs[i])
  }

  function CharactersText(cs: seq<Character>): Text {
    if cs == [] then [] else CharacterText(cs[0]) + CharactersText(cs[1..])
  }

  function StringText(cs: seq<Character>): Text {
    [0x22] + (CharactersText(cs) + [0x22])
  }

  function AllDenoted(cs: seq<Character>): Text {
    if cs == [] then [] else [Denoted(cs[0])] + AllDenoted(cs[1..])
  }

  type Digit = d: int | 0 <= d < 10

  function DigitsText(ds: seq<Digit>): Text {
    if ds == [] then [] else DigitsText(ds[..|ds| - 1]) + [0x30 + ds[|ds| - 1] as int]
  }

  /** The number that some digits denote. */
  function Base10(ds: seq<Digit>): (value: int)
    ensures value >= 0
  {
    if ds == [] then 0 else Base10(ds[..|ds| - 1]) * 10 + ds[|ds| - 1]
  }

  /** A number, section 6; an exponent has its letter and its sign, if it has one. */
  datatype Numeral = Numeral(negative: bool, whole: seq<Digit>, fraction: Option<seq<Digit>>, exponent: Option<Exponent>)

  datatype Exponent = Exponent(large: bool, sign: Option<bool>, digits: seq<Digit>)

  predicate IsNumeral(n: Numeral) {
    && n.whole != [] && (n.fraction.Some? ==> n.fraction.value != [])
    && (n.exponent.Some? ==> n.exponent.value.digits != [])
  }

  function ExponentText(e: Exponent): Text {
    (if e.large then [0x45] else [0x65])
    + (if e.sign.None? then [] else if e.sign.value then [0x2D] else [0x2B]) + DigitsText(e.digits)
  }

  function NumeralText(n: Numeral): Text {
    (if n.negative then [0x2D] else [])
    + (DigitsText(n.whole)
       + ((if n.fraction.Some? then [0x2E] + DigitsText(n.fraction.value) else [])
          + (if n.exponent.Some? then ExponentText(n.exponent.value) else [])))
  }

  /**
   * An integer is its value, one with a fraction or an exponent is its text. What the reader does not take is an integer of
   * less than twenty digits that is no `long`.
   */
  function NumeralMeans(n: Numeral): Result<Json> {
    if n.fraction.Some? || n.exponent.Some? then Ok(Dec(NumeralText(n)))
    else
      var value: int := if n.negative then -Base10(n.whole) else Base10(n.whole);
      if |n.whole| < 20 && !(-0x8000_0000_0000_0000 <= value <= 0x7FFF_FFFF_FFFF_FFFF) then Err(NumberFormat)
      else Ok(Int(value))
  }

  /** A value, sections 3 to 5; an array and an object without anything in it may have white space there. */
  datatype Syntax =
    | NullWord
    | TrueWord
    | FalseWord
    | OfNumber(n: Numeral)
    | OfString(cs: seq<Character>)
    | OfArray(space: Text, items: seq<Element>)
    | OfObject(space: Text, members: seq<Field>)

  /** An element with the white space before and behind it. */
  datatype Element = Element(before: Text, value: Syntax, behind: Text)

  datatype Field = Field(before: Text, name: seq<Character>, behindName: Text, item: Element)

  predicate IsSyntax(v: Syntax)
    decreases v, 1
  {
    match v
    case OfNumber(n) => IsNumeral(n)
    case OfString(cs) => AreCharacters(cs)
    case OfArray(space, items) => AreSpaces(space) && AreElements(items)
    case OfObject(space, members) => AreSpaces(space) && AreFields(members)
    case _ => true
  }

  predicate IsElement(e: Element)
    decreases e, 2
  {
    AreSpaces(e.before) && IsSyntax(e.value) && AreSpaces(e.behind)
  }

  predicate AreElements(items: seq<Element>)
    decreases items, 0
  {
    items != [] ==> IsElement(items[0]) && AreElements(items[1..])
  }

  predicate AreFields(members: seq<Field>)
    decreases members, 0
  {
    members != [] ==>
      && AreSpaces(members[0].before) && AreCharacters(members[0].name) && AreSpaces(members[0].behindName)
      && IsElement(members[0].item) && AreFields(members[1..])
  }

  function SyntaxText(v: Syntax): Text
    decreases v, 1
  {
    match v
    case NullWord => [0x6E, 0x75, 0x6C, 0x6C]
    case TrueWord => [0x74, 0x72, 0x75, 0x65]
    case FalseWord => [0x66, 0x61, 0x6C, 0x73, 0x65]
    case OfNumber(n) => NumeralText(n)
    case OfString(cs) => StringText(cs)
    case OfArray(space, items) => [0x5B] + if items == [] then space + [0x5D] else ElementsText(items)
    case OfObject(space, members) => [0x7B] + if members == [] then space + [0x7D] else FieldsText(members)
  }

  function ElementText(e: Element): Text
    decreases e, 2
  {
    e.before + (SyntaxText(e.value) + e.behind)
  }

  /** The elements with commas between them, and the bracket behind. */
  function ElementsText(items: seq<Element>): Text
    requires items != []
    decreases items, 0
  {
    ElementText(items[0]) + if items[1..] == [] then [0x5D] else [0x2C] + ElementsText(items[1..])
  }

  function FieldsText(members: seq<Field>): Text
    requires members != []
    decreases members, 0
  {
    var m := members[0];
    m.before + (StringText(m.name) + (m.behindName + ([0x3A] + (ElementText(m.item)
      + if members[1..] == [] then [0x7D] else [0x2C] + FieldsText(members[1..])))))
  }

  /** What a text means; what is wrong first decides the error. */
  function Means(v: Syntax): Result<Json>
    decreases v, 1
  {
    match v
    case NullWord => Ok(Null)
    case TrueWord => Ok(Bool(true))
    case FalseWord => Ok(Bool(false))
    case OfNumber(n) => NumeralMeans(n)
    case OfString(cs) => Ok(Str(AllDenoted(cs)))
    case OfArray(_, items) =>
      var vs :- ElementsMean(items);
      Ok(Arr(vs))
    case OfObject(_, members) =>
      var fields :- FieldsMean(map[], members);
      Ok(Obj(fields))
  }

  function ElementsMean(items: seq<Element>): Result<seq<Json>>
    decreases items, 0
  {
    if items == [] then Ok([])
    else
      var v :- Means(items[0].value);
      var vs :- ElementsMean(items[1..]);
      Ok([v] + vs)
  }

  /** A later field of a name replaces an earlier one. A name but the first that is one of the six marks is refused. */
  function FieldsMean(fields: map<Text, Json>, members: seq<Field>): Result<map<Text, Json>>
    decreases members, 0
  {
    if members == [] then Ok(fields)
    else
      var v :- Means(members[0].item.value);
      if members[1..] != [] && IsOneMark(AllDenoted(members[1].name)) then Err(Malformed)
      else FieldsMean(fields[AllDenoted(members[0].name) := v], members[1..])
  }

  predicate IsOneMark(name: Text) {
    name in {[0x7B], [0x7D], [0x5B], [0x5D], [0x3A], [0x2C]}
  }

  // ---------------------------------------------------------------- white space

  lemma {:induction false} SpacesSkipped(ws: Text, s: Text)
    requires AreSpaces(ws)
    ensures Read(ws + s) == Read(s)
  {
    hide ReadToken;
    if ws == [] {
      assert ws + s == s;
    } else {
      assert (ws + s)[1..] == ws[1..] + s;
      SpacesSkipped(ws[1..], s);
    }
  }

  lemma SpacesEnd(ws: Text, c: Unit, s: Text)
    requires AreSpaces(ws) && c in {0x2C, 0x5D, 0x7D}
    ensures EndsNumber(ws + ([c] + s))
  {
    if ws == [] {
      assert ws + ([c] + s) == [c] + s;
    }
  }

  // ---------------------------------------------------------------- strings

  lemma HexSpelledIs(x: HexSpelling)
    ensures HexValue(x.Spelled()) == x.d
  {
  }

  lemma CharacterRead(x: Character, rest: Text)
    requires IsCharacter(x)
    ensures ReadString(CharacterText(x) + rest) == Prefixed(Denoted(x), ReadString(rest))
  {
    var s := CharacterText(x) + rest;
    match x
    case Plain(c) =>
      assert s[1..] == rest;
    case Letter(c) =>
      assert s[2..] == rest;
    case Hex(a, b, c, d) =>
      HexSpelledIs(a);
      HexSpelledIs(b);
      HexSpelledIs(c);
      HexSpelledIs(d);
      hide HexValue;
      assert s[2..][0] == a.Spelled() && s[2..][1] == b.Spelled() && s[2..][2] == c.Spelled() && s[2..][3] == d.Spelled();
      assert s[6..] == rest;
  }

  lemma {:induction false} CharactersRead(cs: seq<Character>, rest: Text)
    requires AreCharacters(cs)
    ensures ReadString(CharactersText(cs) + ([0x22] + rest)) == Ok((AllDenoted(cs), rest))
  {
    hide IsCharacter, Denoted, CharacterText;
    var s := [0x22] + rest;
    if cs == [] {
      assert CharactersText(cs) + s == s && s[1..] == rest;
    } else {
      CharactersRead(cs[1..], rest);
      CharacterRead(cs[0], CharactersText(cs[1..]) + s);
      Regrouped(CharacterText(cs[0]), CharactersText(cs[1..]), s);
    }
  }

  lemma StringRead(cs: seq<Character>, rest: Text)
    requires AreCharacters(cs)
    ensures Read(StringText(cs) + rest) == Ok((Value(Str(AllDenoted(cs))), rest))
  {
    hide ReadString, AllDenoted, CharactersText, AreCharacters, Read;
    var s := StringText(cs) + rest;
    CharactersRead(cs, rest);
    Regrouped(CharactersText(cs), [0x22], rest);
    assert s == [0x22] + (CharactersText(cs) + ([0x22] + rest));
    assert s[1..] == CharactersText(cs) + ([0x22] + rest);
    R.ReadAt(s);
  }

  // ---------------------------------------------------------------- numbers

  lemma {:induction false} DigitsAre(ds: seq<Digit>)
    ensures AllDigits(DigitsText(ds)) && AllAscii(DigitsText(ds)) && |DigitsText(ds)| == |ds|
    ensures DigitsValue(DigitsText(ds)) == Base10(ds)
  {
    if ds != [] {
      DigitsAre(ds[..|ds| - 1]);
      assert DigitsText(ds)[..|ds| - 1] == DigitsText(ds[..|ds| - 1]);
    }
  }

  /** The four parts of a number as the reader cuts them. */
  function PartsOf(n: Numeral): NumberText {
    NumberText(
      if n.negative then [0x2D] else [], DigitsText(n.whole),
      if n.fraction.Some? then [0x2E] + DigitsText(n.fraction.value) else [],
      if n.exponent.Some? then ExponentText(n.exponent.value) else [])
  }

  lemma ExponentIs(e: Exponent)
    requires e.digits != []
    ensures ExponentText(e) != [] && IsExponent(ExponentText(e)) && AllAscii(ExponentText(e))
  {
    var t, digits := ExponentText(e), DigitsText(e.digits);
    DigitsAre(e.digits);
    hide DigitsText;
    var mark := if e.large then [0x45] else [0x65];
    var sign := if e.sign.None? then [] else if e.sign.value then [0x2D] else [0x2B];
    assert t == mark + sign + digits && t[0] == mark[0] && |mark + sign| == 1 + |sign|;
    assert digits[0] < 0x80 && IsDigit(digits[0]);
    assert t[1] == (if sign == [] then digits[0] else sign[0]);
    assert MarkLength(t) == 1 + |sign|;
    assert t[MarkLength(t)..] == digits;
    assert forall i :: 0 <= i < |t| ==> t[i] == if i <= |sign| then (mark + sign)[i] else digits[i - 1 - |sign|];
  }

  lemma FractionIs(ds: seq<Digit>)
    ensures var t := [0x2E] + DigitsText(ds); t[0] == DOT && AllDigits(t[1..]) && AllAscii(t)
  {
    DigitsAre(ds);
    hide DigitsText;
    var t := [0x2E] + DigitsText(ds);
    assert t[1..] == DigitsText(ds);
  }

  lemma AsciiBoth(a: Text, b: Text)
    requires AllAscii(a) && AllAscii(b)
    ensures AllAscii(a + b)
  {
  }

  lemma ExponentEnds(e: Text)
    requires e != [] && IsExponent(e)
    ensures IsDigit(e[|e| - 1])
  {
    var n := MarkLength(e);
    assert e[n..][|e| - n - 1] == e[|e| - 1];
  }

  lemma PartsAre(n: Numeral)
    requires IsNumeral(n)
    ensures PartsOf(n).WellShaped() && PartsOf(n).ToText() == NumeralText(n) && AllAscii(NumeralText(n))
    ensures n.exponent.Some? ==> IsDigit(PartsOf(n).exponent[|PartsOf(n).exponent| - 1])
    ensures |PartsOf(n).whole| == |n.whole| && (n.exponent.Some? ==> PartsOf(n).exponent != [])
  {
    DigitsAre(n.whole);
    if n.fraction.Some? {
      FractionIs(n.fraction.value);
    }
    if n.exponent.Some? {
      ExponentIs(n.exponent.value);
      ExponentEnds(ExponentText(n.exponent.value));
    }
    hide DigitsText, DigitsValue, Base10, ExponentText, IsExponent, IsDigit, AllDigits;
    var p := PartsOf(n);
    AsciiBoth(p.fraction, p.exponent);
    AsciiBoth(p.whole, p.fraction + p.exponent);
    AsciiBoth(p.sign, p.whole + (p.fraction + p.exponent));
  }

  lemma NumeralIs(n: Numeral)
    requires IsNumeral(n)
    ensures NumberOf(PartsOf(n)) == NumeralMeans(n)
  {
    PartsAre(n);
    DigitsAre(n.whole);
    hide DigitsText, DigitsValue, Base10, ExponentText;
  }

  lemma NumeralRead(n: Numeral, rest: Text)
    requires IsNumeral(n) && EndsNumber(rest)
    ensures Read(NumeralText(n) + rest) == TokenWith(NumeralMeans(n), rest)
  {
    PartsAre(n);
    NumeralIs(n);
    ScanComplete(PartsOf(n), rest);
    StartStays(NumeralText(n), rest);
    hide NumeralText, PartsOf, NumberOf, NumeralMeans, ScanNumber;
    R.ReadNumberToken(NumeralText(n) + rest);
  }

  lemma StartStays(t: Text, rest: Text)
    requires StartsNumber(t)
    ensures StartsNumber(t + rest)
  {
  }

  // ---------------------------------------------------------------- values

  function TokenWith(v: Result<Json>, rest: Text): Result<(Token, Text)> {
    if v.Ok? then Ok((Value(v.value), rest)) else Err(v.error)
  }

  function With<T>(v: Result<T>, rest: Text): Result<(T, Text)> {
    if v.Ok? then Ok((v.value, rest)) else Err(v.error)
  }

  predicate EndsSyntax(v: Syntax, rest: Text) {
    v.OfNumber? ==> EndsNumber(rest)
  }

  lemma WordRead(v: Syntax, rest: Text)
    requires v.NullWord? || v.TrueWord? || v.FalseWord?
    ensures Read(SyntaxText(v) + rest) == TokenWith(Means(v), rest)
  {
    var t := SyntaxText(v);
    var s := t + rest;
    R.ReadAt(s);
    assert s[1..] == t[1..] + rest;
    assert t[1..] <= s[1..] && s[1..][|t| - 1..] == rest;
  }

  /** The text of any value, with anything behind it that does not continue a number, is read as what it means. */
  lemma {:induction false} SyntaxRead(v: Syntax, rest: Text)
    requires IsSyntax(v) && EndsSyntax(v, rest)
    ensures Read(SyntaxText(v) + rest) == TokenWith(Means(v), rest)
    decreases v, 1
  {
    hide NumeralText, StringText, IsNumeral, AreCharacters, NumeralMeans, AllDenoted, ElementsText, FieldsText, ReadItems,
      ReadMembers, AreSpaces, IsElement;
    var s := SyntaxText(v) + rest;
    match v
    case OfNumber(n) => NumeralRead(n, rest);
    case OfString(cs) => StringRead(cs, rest);
    case OfArray(space, items) =>
      R.ReadAt(s);
      if items == [] {
        assert s[1..] == space + ([0x5D] + rest);
        SpacesSkipped(space, [0x5D] + rest);
        R.ReadMark(CLOSE_BRACKET, rest);
      } else {
        assert s[1..] == ElementsText(items) + rest;
        ElementsRead(items, rest);
      }
    case OfObject(space, members) =>
      R.ReadAt(s);
      if members == [] {
        assert s[1..] == space + ([0x7D] + rest);
        SpacesSkipped(space, [0x7D] + rest);
        R.ReadMark(CLOSE_BRACE, rest);
      } else {
        assert s[1..] == FieldsText(members) + rest;
        FieldsRead(map[], members, rest);
      }
    case _ => WordRead(v, rest);
  }

  /** An element and a mark behind it. */
  lemma {:induction false} ElementRead(e: Element, c: Unit, rest: Text)
    requires IsElement(e) && c in {0x2C, 0x5D, 0x7D}
    ensures Read(ElementText(e) + ([c] + rest)) == TokenWith(Means(e.value), e.behind + ([c] + rest))
    ensures Read(e.behind + ([c] + rest)) == Read([c] + rest)
    decreases e, 2
  {
    var tail := [c] + rest;
    SpacesEnd(e.behind, c, rest);
    SyntaxRead(e.value, e.behind + tail);
    Regrouped(SyntaxText(e.value), e.behind, tail);
    Regrouped(e.before, SyntaxText(e.value) + e.behind, tail);
    SpacesSkipped(e.before, SyntaxText(e.value) + (e.behind + tail));
    SpacesSkipped(e.behind, tail);
  }

  /** `ReadArray` from behind the bracket: the first element, and the others from it on. */
  lemma {:induction false} ElementsRead(items: seq<Element>, rest: Text)
    requires items != [] && AreElements(items)
    ensures var r := Read(ElementsText(items) + rest);
            (if r.Err? then Err(r.error) else if r.value.0.Punctuation? then Err(Malformed) else ReadItems(r.value.0, r.value.1))
            == With(ElementsMean(items), rest)
    ensures var r := Read(ElementsText(items) + rest); r.Ok? ==> r.value.0.Value?
    decreases items, 0
  {
    hide IsElement, ElementText, Means, Read;
    var last := items[1..] == [];
    var c: Unit := if last then 0x5D else 0x2C;
    var more := if last then rest else ElementsText(items[1..]) + rest;
    assert ElementsText(items) + rest == ElementText(items[0]) + ([c] + more) by {
      ElementsAppend(items, rest);
    }
    ElementRead(items[0], c, more);
    R.ReadMark(c, more);
    var v := if Means(items[0].value).Ok? then Means(items[0].value).value else Null;
    if last {
      assert ElementsMean(items[1..]) == Ok([]);
      assert [v] + [] == [v];
    } else {
      ElementsRead(items[1..], rest);
    }
  }

  lemma ElementsAppend(items: seq<Element>, rest: Text)
    requires items != []
    ensures ElementsText(items) + rest ==
      ElementText(items[0]) + (if items[1..] == [] then [0x5D] + rest else [0x2C] + (ElementsText(items[1..]) + rest))
  {
    hide ElementText;
    if items[1..] != [] {
      Regrouped([0x2C], ElementsText(items[1..]), rest);
      Regrouped(ElementText(items[0]), [0x2C] + ElementsText(items[1..]), rest);
    } else {
      Regrouped(ElementText(items[0]), [0x5D], rest);
    }
  }

  lemma FieldsAppend(members: seq<Field>, rest: Text)
    requires members != []
    ensures var m := members[0];
            FieldsText(members) + rest ==
            m.before + (StringText(m.name) + (m.behindName + ([0x3A] + (ElementText(m.item)
              + if members[1..] == [] then [0x7D] + rest else [0x2C] + (FieldsText(members[1..]) + rest)))))
  {
    hide ElementText, StringText;
    var m := members[0];
    var end := if members[1..] == [] then [0x7D] else [0x2C] + FieldsText(members[1..]);
    if members[1..] != [] {
      Regrouped([0x2C], FieldsText(members[1..]), rest);
    }
    Regrouped(ElementText(m.item), end, rest);
    Regrouped([0x3A], ElementText(m.item) + end, rest);
    Regrouped(m.behindName, [0x3A] + (ElementText(m.item) + end), rest);
    Regrouped(StringText(m.name), m.behindName + ([0x3A] + (ElementText(m.item) + end)), rest);
    Regrouped(m.before, StringText(m.name) + (m.behindName + ([0x3A] + (ElementText(m.item) + end))), rest);
  }

  lemma MarkIsPunctuation(name: Text)
    ensures IsPunctuation(name) <==> IsOneMark(name)
  {
    if |name| == 1 {
      assert name == [name[0]];
    }
  }

  /** `ReadObject` from behind the brace: the first name, and the fields from it on. */
  lemma {:induction false} FieldsRead(fields: map<Text, Json>, members: seq<Field>, rest: Text)
    requires members != [] && AreFields(members)
    ensures var r := Read(FieldsText(members) + rest);
            && r.Ok? && r.value.0 == Value(Str(AllDenoted(members[0].name)))
            && ReadMembers(fields, AllDenoted(members[0].name), r.value.1) == With(FieldsMean(fields, members), rest)
    decreases members, 0
  {
    hide IsElement, ElementText, Means, Read, StringText, AreCharacters, AllDenoted, IsOneMark, IsPunctuation;
    var m := members[0];
    var last := members[1..] == [];
    var c: Unit := if last then 0x7D else 0x2C;
    var more := if last then rest else FieldsText(members[1..]) + rest;
    var item := ElementText(m.item) + ([c] + more);
    var colon := m.behindName + ([0x3A] + item);
    FieldsAppend(members, rest);
    SpacesSkipped(m.before, StringText(m.name) + colon);
    StringRead(m.name, colon);
    SpacesSkipped(m.behindName, [0x3A] + item);
    R.ReadMark(Units.COLON, item);
    ElementRead(m.item, c, more);
    R.ReadMark(c, more);
    if !last {
      var fields' := fields[AllDenoted(m.name) := if Means(m.item.value).Ok? then Means(m.item.value).value else Null];
      FieldsRead(fields', members[1..], rest);
      MarkIsPunctuation(AllDenoted(members[1].name));
    }
  }

  /** `Json.read` of any text of RFC 8259, white space around it included. */
  lemma ReadsGrammar(e: Element)
    requires IsElement(e)
    ensures ReadJson(ElementText(e)) == Means(e.value)
  {
    hide SyntaxText, Means, Read;
    SpacesSkipped(e.before, SyntaxText(e.value) + e.behind);
    BehindEnds(e.behind);
    SyntaxRead(e.value, e.behind);
  }

  lemma BehindEnds(ws: Text)
    requires AreSpaces(ws)
    ensures EndsNumber(ws)
  {
  }

  // ---------------------------------------------------------------- beyond the grammar

  /** `Character.isWhitespace`: the controls 9 to 13 and 28 to 31, and the separators that may be broken at. */
  const JAVA_SPACES: seq<Unit> := [
    0x09, 0x0A, 0x0B, 0x0C, 0x0D, 0x1C, 0x1D, 0x1E, 0x1F, 0x20, 0x1680, 0x180E, 0x2000, 0x2001, 0x2002, 0x2003, 0x2004,
    0x2005, 0x2006, 0x2008, 0x2009, 0x200A, 0x2028, 0x2029, 0x205F, 0x3000]

  /** The units that the reader passes over before a value, whatever comes behind them. */
  lemma PassedOverIff(c: Unit)
    ensures c in JAVA_SPACES <==> forall s: Text :: SkipWhiteSpace([c] + s) == SkipWhiteSpace(s)
  {
    if c in JAVA_SPACES {
      assert IsWhitespace(c);
      forall s: Text
        ensures SkipWhiteSpace([c] + s) == SkipWhiteSpace(s)
      {
        assert ([c] + s)[1..] == s;
      }
    } else {
      NoSpace(c);
      var s: Text := [];
      assert [c] + s == [c] && [c][1..] == [];
      assert SkipWhiteSpace([c]) == Ok([c]) && SkipWhiteSpace([]) == Ok([]);
      assert !(SkipWhiteSpace([c] + s) == SkipWhiteSpace(s));
    }
  }

  lemma NoSpace(c: Unit)
    requires c !in JAVA_SPACES
    ensures !IsWhitespace(c)
  {
    var js := JAVA_SPACES;
    assert forall i :: 0 <= i < |js| ==> js[i] != c;
    assert js[0] != c && js[1] != c && js[2] != c && js[3] != c && js[4] != c && js[5] != c && js[6] != c && js[7] != c;
    assert js[8] != c && js[9] != c && js[10] != c && js[11] != c && js[12] != c && js[13] != c && js[14] != c;
    assert js[15] != c && js[16] != c && js[17] != c && js[18] != c && js[19] != c && js[20] != c && js[21] != c;
    assert js[22] != c && js[23] != c && js[24] != c && js[25] != c;
  }

  /** The digit that a unit is, if it is one. */
  function HexDigitOf(c: Unit): Option<HexDigit> {
    if exists i: HexDigit :: c == HEX_SMALL[i] || c == HEX_LARGE[i]
    then
      var i: HexDigit :| c == HEX_SMALL[i] || c == HEX_LARGE[i];
      Some(i)
    else None
  }

  /** The number that the digits among some units denote. */
  ghost function Base16(t: Text): int {
    if t == [] then 0
    else
      var d := HexDigitOf(t[|t| - 1]);
      if d.Some? then Base16(t[..|t| - 1]) * 16 + d.value else Base16(t[..|t| - 1])
  }

  lemma HexDigitIs(c: Unit)
    ensures HexValue(c) == if HexDigitOf(c).Some? then HexDigitOf(c).value else -1
  {
    if 0 <= HexValue(c) {
      var d: HexDigit := HexValue(c);
      assert c == HEX_SMALL[d] || c == HEX_LARGE[d];
    }
  }

  lemma Base16Push(t: Text, c: Unit)
    ensures Base16(t + [c]) == AddHex(Base16(t), c)
  {
    HexDigitIs(c);
    hide HexDigitOf, HexValue;
    assert (t + [c])[..|t|] == t;
  }

  lemma Base16Of(a: Unit, b: Unit, c: Unit, d: Unit)
    ensures HexUnit([a, b, c, d]) == Base16([a, b, c, d])
  {
    Base16Push([], a);
    Base16Push([a], b);
    Base16Push([a, b], c);
    Base16Push([a, b, c], d);
    assert [] + [a] == [a] && [a] + [b] == [a, b] && [a, b] + [c] == [a, b, c] && [a, b, c] + [d] == [a, b, c, d];
    assert Base16([]) == 0;
    hide Base16, AddHex;
  }

  /**
   * Behind `\u` the reader takes any four units, and passes over those that are no hexadecimal digits; behind any other
   * backslash it takes a unit without a meaning of its own as it is.
   */
  lemma LooseEscapes(a: Unit, b: Unit, c: Unit, d: Unit, rest: Text)
    ensures 0 <= Base16([a, b, c, d]) < 0x1_0000
    ensures ReadString([0x5C, 0x75, a, b, c, d] + rest) == Prefixed(Base16([a, b, c, d]), ReadString(rest))
    ensures a !in {0x62, 0x66, 0x6E, 0x72, 0x74, 0x75} ==> ReadString([0x5C, a] + rest) == Prefixed(a, ReadString(rest))
  {
    Base16Of(a, b, c, d);
    hide Base16, HexValue;
    var s := [0x5C, 0x75, a, b, c, d] + rest;
    assert s[6..] == rest;
    assert HexUnit(s[2..]) == HexUnit([a, b, c, d]);
    assert ([0x5C, a] + rest)[2..] == rest;
  }
}
