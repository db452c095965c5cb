/** What `Reader` makes of a text: each function takes the text from the current character on. */
module ReaderSpec {
  import opened Units
  import opened JsonValues
  import opened Numbers

  /** The punctuation tokens a read can give. */
  datatype Mark = ObjectEnd | ArrayEnd | Colon | Comma

  datatype Token = Punctuation(mark: Mark) | Value(json: Json)

  const TRUE_TAIL: Text := [0x72, 0x75, 0x65]
  const FALSE_TAIL: Text := [0x61, 0x6C, 0x73, 0x65]
  const NULL_TAIL: Text := [0x75, 0x6C, 0x6C]

  predicate IsPunctuation(key: Text) {
    |key| == 1 && (key[0] == OPEN_BRACE || key[0] == CLOSE_BRACE || key[0] == OPEN_BRACKET
                   || key[0] == CLOSE_BRACKET || key[0] == Units.COLON || key[0] == COMMA)
  }

  predicate AtDone(s: Text) {
    s == [] || s[0] == DONE
  }

  // ---------------------------------------------------------------- white space and comments

  /** From the star of an opened comment, or a later unit, to the slash that closes it. */
  function SkipBlock(s: Text): (r: Result<Text>)
    ensures r.Ok? ==> 0 < |r.value| <= |s|
  {
    if AtDone(s) then Err(Malformed)
    else if !StartsWith(s[1..], STAR) then SkipBlock(s[1..])
    else if StartsWith(s[2..], SLASH) then Ok(s[2..])
    else SkipBlock(s[2..])
  }

  /** From the second slash of a line comment to the end of the line. */
  function SkipLine(s: Text): (r: Text)
    ensures |r| <= |s|
  {
    if AtDone(s) || s[0] == NEWLINE then s else SkipLine(s[1..])
  }

  function SkipWhiteSpace(s: Text): (r: Result<Text>)
    ensures r.Ok? ==> |r.value| <= |s|
    decreases |s|
  {
    if s == [] then Ok(s)
    else if IsWhitespace(s[0]) then SkipWhiteSpace(s[1..])
    else if s[0] != SLASH then Ok(s)
    else if StartsWith(s[1..], STAR) then
      var closing :- SkipBlock(s[1..]);
      SkipWhiteSpace(closing[1..])
    else if StartsWith(s[1..], SLASH) then
      var eol := SkipLine(s[1..]);
      if eol == [] then Err(Malformed) else SkipWhiteSpace(eol[1..])
    else Ok(s)
  }

  // ---------------------------------------------------------------- strings

  function HexValue(c: Unit): (d: int)
    ensures -1 <= d < 16
  {
    if ZERO <= c <= ZERO + 9 then c - ZERO
    else if 0x61 <= c <= 0x66 then c - 0x61 + 10
    else if 0x41 <= c <= 0x46 then c - 0x41 + 10
    else -1
  }

  function AddHex(value: int, c: Unit): int {
    if HexValue(c) < 0 then value else value * 16 + HexValue(c)
  }

  /** `unicode`: four units, those that are no hexadecimal digit being passed over. */
  function HexUnit(s: Text): (u: Unit)
    requires |s| >= 4
  {
    AddHex(AddHex(AddHex(AddHex(0, s[0]), s[1]), s[2]), s[3])
  }

  /** The units with a meaning of their own behind a backslash. */
  predicate IsEscape(c: Unit) {
    c == QUOTE || c == BACKSLASH || c == SLASH || c == 0x62 || c == 0x66 || c == 0x6E || c == 0x72 || c == 0x74
  }

  /** What the unit after a backslash stands for; a unit without a meaning of its own stands for itself. */
  function EscapeMeaning(c: Unit): Unit {
    if c == 0x62 then 0x08
    else if c == 0x66 then FORM_FEED
    else if c == 0x6E then NEWLINE
    else if c == 0x72 then RETURN
    else if c == 0x74 then TAB
    else c
  }

  /** `readString`: from behind the opening quote to behind the closing one. */
  function ReadString(s: Text): (r: Result<(Text, Text)>)
    ensures r.Ok? ==> |r.value.1| < |s|
  {
    if s == [] then Err(Malformed)
    else if s[0] == QUOTE then Ok(([], s[1..]))
    else if s[0] != BACKSLASH then Prefixed(s[0], ReadString(s[1..]))
    else if |s| == 1 then Err(Malformed)
    else if s[1] != LOWER_U then Prefixed(EscapeMeaning(s[1]), ReadString(s[2..]))
    else if |s| < 6 then Err(Malformed)
    else Prefixed(HexUnit(s[2..]), ReadString(s[6..]))
  }

  function Prefixed<T>(x: T, r: Result<(seq<T>, Text)>): (p: Result<(seq<T>, Text)>)
    ensures p.Ok? <==> r.Ok?
    ensures p.Ok? ==> p.value.1 == r.value.1
  {
    if r.Ok? then Ok(([x] + r.value.0, r.value.1)) else r
  }

  // ---------------------------------------------------------------- values

  /** The rest of a keyword behind its first letter. */
  function ReadKeyword(s: Text, tail: Text, v: Json): (r: Result<(Token, Text)>)
    ensures r.Ok? ==> |r.value.1| <= |s|
  {
    if tail <= s then Ok((Value(v), s[|tail|..])) else Err(Malformed)
  }

  /** `asString` of a value found where a key should be. */
  function AsKey(v: Json): Result<Text> {
    match v
    case Str(s) => Ok(s)
    case Int(n) => Ok(PrintInt(n))
    case Dec(literal) => Ok(literal)
    case _ => Err(Unsupported)
  }

  /** `read()`: the next token, which is a whole value unless it is a punctuation mark. */
  function Read(s: Text): (r: Result<(Token, Text)>)
    ensures r.Ok? ==> |r.value.1| < |s|
    decreases |s|, 1
  {
    var t :- SkipWhiteSpace(s);
    if t == [] then Err(Malformed) else ReadToken(t)
  }

  function ReadToken(t: Text): (r: Result<(Token, Text)>)
    requires t != []
    ensures r.Ok? ==> |r.value.1| < |t|
    decreases |t|, 0
  {
    var c := t[0];
    if c == QUOTE then
      var (text, rest) :- ReadString(t[1..]);
      Ok((Value(Str(text)), rest))
    else if c == OPEN_BRACKET then
      var (items, rest) :- ReadArray(t[1..]);
      Ok((Value(Arr(items)), rest))
    else if c == OPEN_BRACE then
      var (fields, rest) :- ReadObject(t[1..]);
      Ok((Value(Obj(fields)), rest))
    else if c == CLOSE_BRACKET then Ok((Punctuation(ArrayEnd), t[1..]))
    else if c == CLOSE_BRACE then Ok((Punctuation(ObjectEnd), t[1..]))
    else if c == COMMA then Ok((Punctuation(Comma), t[1..]))
    else if c == Units.COLON then Ok((Punctuation(Colon), t[1..]))
    else if c == 0x74 then ReadKeyword(t[1..], TRUE_TAIL, Bool(true))
    else if c == 0x66 then ReadKeyword(t[1..], FALSE_TAIL, Bool(false))
    else if c == 0x6E then ReadKeyword(t[1..], NULL_TAIL, Null)
    else if IsDigit(c) || c == MINUS then
      var (n, rest) :- ReadNumber(t);
      Ok((Value(n), rest))
    else Err(Malformed)
  }

  /** `readArray`: from behind the opening bracket to behind the closing one. */
  function ReadArray(s: Text): (r: Result<(seq<Json>, Text)>)
    ensures r.Ok? ==> |r.value.1| < |s|
    decreases |s|, 3
  {
    var (first, s1) :- Read(s);
    if first == Punctuation(ArrayEnd) then Ok(([], s1)) else ReadItems(first, s1)
  }

  /** The elements of an array from `first`, which has just been read, on. */
  function ReadItems(first: Token, s: Text): (r: Result<(seq<Json>, Text)>)
    ensures r.Ok? ==> |r.value.1| < |s|
    decreases |s|, 2
  {
    if first.Punctuation? then Err(Malformed)
    else
      var (separator, s1) :- Read(s);
      if separator == Punctuation(ArrayEnd) then Ok(([first.json], s1))
      else if separator != Punctuation(Comma) then Err(Malformed)
      else
        var (next, s2) :- Read(s1);
        Prefixed(first.json, ReadItems(next, s2))
  }

  /** `readObject`: from behind the opening brace to behind the closing one. */
  function ReadObject(s: Text): (r: Result<(map<Text, Json>, Text)>)
    ensures r.Ok? ==> |r.value.1| < |s|
    decreases |s|, 3
  {
    var (first, s1) :- Read(s);
    if first == Punctuation(ObjectEnd) then Ok((map[], s1))
    else
      var key :- KeyOf(first);
      ReadMembers(map[], key, s1)
  }

  /** `readObjectKey`, the closing brace apart. */
  function KeyOf(token: Token): Result<Text> {
    if token.Punctuation? then Err(Malformed) else AsKey(token.json)
  }

  /** The members of an object from the one named `key` on, on top of those read before. */
  function ReadMembers(fields: map<Text, Json>, key: Text, s: Text): (r: Result<(map<Text, Json>, Text)>)
    ensures r.Ok? ==> |r.value.1| < |s|
    decreases |s|, 2
  {
    var (colon, s1) :- Read(s);
    if colon != Punctuation(Colon) then Err(Malformed)
    else
      var (value, s2) :- Read(s1);
      if value.Punctuation? then Err(ClassCast)
      else
        ReadMoreMembers(fields[key := value.json], s2)
  }

  /** The members of an object from behind a value on. */
  function ReadMoreMembers(fields: map<Text, Json>, s: Text): (r: Result<(map<Text, Json>, Text)>)
    ensures r.Ok? ==> |r.value.1| < |s|
    decreases |s|, 2
  {
    var (separator, s1) :- Read(s);
    if separator == Punctuation(ObjectEnd) then Ok((fields, s1))
    else if separator != Punctuation(Comma) then Err(Malformed)
    else
      var (next, s2) :- Read(s1);
      var name :- KeyOf(next);
      if IsPunctuation(name) then Err(Malformed) else ReadMembers(fields, name, s2)
  }

  /** `Json.read(String)`: the first value of a text, whatever follows it. */
  function ReadJson(s: Text): Result<Json> {
    var (token, _) :- Read(s);
    if token.Punctuation? then Err(ClassCast) else Ok(token.json)
  }
}
