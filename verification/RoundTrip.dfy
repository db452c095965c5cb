/** Reading undoes printing, and exactly when. */
module RoundTrip {
  import opened Units
  import opened JsonValues
  import opened Numbers
  import opened Escaper
  import opened Printer
  import opened ReaderSpec

  // ---------------------------------------------------------------- strings

  lemma HexRoundTrip(c: Unit, rest: Text)
    ensures HexUnit(HexEscape(c)[2..] + rest) == c
  {
    var t := HexEscape(c)[2..];
    assert t == [HexChar(c / 0x1000), HexChar(c / 0x100 % 16), HexChar(c / 16 % 16), HexChar(c % 16)];
    assert HexValue(HexChar(c / 0x1000)) == c / 0x1000;
    assert HexValue(HexChar(c / 0x100 % 16)) == c / 0x100 % 16;
    assert HexValue(HexChar(c / 16 % 16)) == c / 16 % 16;
    assert HexValue(HexChar(c % 16)) == c % 16;
    HexSum(c);
  }

  lemma HexSum(c: Unit)
    ensures ((c / 0x1000 * 16 + c / 0x100 % 16) * 16 + c / 16 % 16) * 16 + c % 16 == c
  {
  }

  lemma ReadEscapedUnit(c: Unit, rest: Text)
    ensures ReadString(EscapeUnit(c) + rest) == Prefixed(c, ReadString(rest))
  {
    var s := EscapeUnit(c) + rest;
    if !NeedsEscape(c) {
      assert s[1..] == rest;
    } else if |EscapeSequence(c)| == 2 {
      assert s[0] == BACKSLASH && s[1] == EscapeSequence(c)[1];
      assert s[2..] == rest;
    } else {
      assert s[0] == BACKSLASH && s[1] == LOWER_U;
      assert s[2..] == HexEscape(c)[2..] + rest;
      assert s[6..] == rest;
      HexRoundTrip(c, rest);
    }
  }

  /** Escaped text and a closing quote read back as the text, unpaired surrogates included. */
  lemma {:induction false} ReadEscaped(s: Text, rest: Text)
    ensures ReadString(Escape(s) + ([QUOTE] + rest)) == Ok((s, rest))
  {
    if s == [] {
      assert Escape(s) + ([QUOTE] + rest) == [QUOTE] + rest;
    } else {
      var tail := Escape(s[1..]) + ([QUOTE] + rest);
      assert Escape(s) + ([QUOTE] + rest) == EscapeUnit(s[0]) + tail;
      ReadEscapedUnit(s[0], tail);
      ReadEscaped(s[1..], rest);
      assert s == [s[0]] + s[1..];
    }
  }

  lemma ReadQuoted(s: Text, rest: Text)
    ensures Read(Quoted(s) + rest) == Ok((Value(Str(s)), rest))
  {
    var t := Quoted(s) + rest;
    assert t[1..] == Escape(s) + ([QUOTE] + rest);
    ReadEscaped(s, rest);
  }

  // ---------------------------------------------------------------- values

  /** The documents whose text reads back: no later key is a punctuation mark, no number is out of reach. */
  predicate Readable(d: Doc)
    decreases d
  {
    match d
    case Scalar(v) => (v.Int? ==> ReadableInt(v.n)) && (v.Dec? ==> !IsNonFinite(v.literal))
    case Array(items) => AllReadable(items)
    case Object(members) => AllMembersReadable(members)
  }

  predicate AllReadable(items: seq<Doc>)
    decreases items
  {
    items != [] ==> Readable(items[0]) && AllReadable(items[1..])
  }

  predicate AllMembersReadable(members: seq<Member>)
    decreases members, 1
  {
    members != [] ==> Readable(members[0].doc) && LaterReadable(members[1..])
  }

  predicate LaterReadable(members: seq<Member>)
    decreases members
  {
    members != [] ==>
      !IsPunctuation(members[0].key) && Readable(members[0].doc) && LaterReadable(members[1..])
  }

  predicate IsNumberDoc(d: Doc) {
    d.Scalar? && (d.json.Int? || d.json.Dec?)
  }

  /** `rest` does not continue the text of `d`; only a number can be continued. */
  predicate Ends(d: Doc, rest: Text) {
    IsNumberDoc(d) ==> EndsNumber(rest)
  }

  /** A text starting with a unit that is neither white space nor a slash is read from there. */
  lemma ReadAt(s: Text)
    requires s != [] && !IsWhitespace(s[0]) && s[0] != SLASH
    ensures Read(s) == ReadToken(s)
  {
  }

  lemma ReadMark(c: Unit, rest: Text)
    requires c == CLOSE_BRACKET || c == CLOSE_BRACE || c == Units.COMMA || c == Units.COLON
    ensures Read([c] + rest) == Ok((Punctuation(
      if c == CLOSE_BRACKET then ArrayEnd else if c == CLOSE_BRACE then ObjectEnd
      else if c == Units.COMMA then Comma else Colon), rest))
  {
    assert ([c] + rest)[1..] == rest;
  }

  lemma NumberUnit(c: Unit)
    requires IsDigit(c) || c == MINUS
    ensures !IsWhitespace(c) && c != SLASH
    ensures c != QUOTE && c != OPEN_BRACKET && c != CLOSE_BRACKET && c != OPEN_BRACE && c != CLOSE_BRACE
    ensures c != Units.COMMA && c != Units.COLON && c != 0x74 && c != 0x66 && c != 0x6E
  {
    if IsWhitespace(c) {
      WhitespaceIsNoDigit(c);
    }
  }

  lemma ReadNumberToken(s: Text)
    requires StartsNumber(s)
    ensures Read(s) == if ReadNumber(s).Ok? then Ok((Value(ReadNumber(s).value.0), ReadNumber(s).value.1))
                       else Err(ReadNumber(s).error)
  {
    hide IsWhitespace, IsDigit, ReadNumber;
    NumberUnit(s[0]);
    ReadAt(s);
  }

  lemma ReadNonFinite(literal: Text, rest: Text)
    requires IsNonFinite(literal) && EndsNumber(rest)
    ensures Read(literal + rest).Err?
  {
    var s := literal + rest;
    if literal == [MINUS] + INFINITY {
      var s1 := INFINITY + rest;
      assert s == [MINUS] + s1;
      assert s[1..] == s1;
      assert s1[0] == 0x49;
      assert ScanNumber(s) == (NumberText([MINUS], [], [], []), s1);
      ReadNumberToken(s);
    } else {
      assert s[0] == literal[0];
      ReadAt(s);
    }
  }

  lemma ReadScalar(v: Json, rest: Text)
    requires WellFormed(Scalar(v)) && Ends(Scalar(v), rest)
    ensures Readable(Scalar(v)) ==> Read(PrintScalar(v) + rest) == Ok((Value(v), rest))
    ensures !Readable(Scalar(v)) ==> Read(PrintScalar(v) + rest).Err?
  {
    var s := PrintScalar(v) + rest;
    match v {
      case Null =>
        assert s[1..] == NULL_TAIL + rest;
      case Bool(b) =>
        assert s[1..] == (if b then TRUE_TAIL else FALSE_TAIL) + rest;
      case Str(t) =>
        ReadQuoted(t, rest);
      case Int(n) =>
        ReadPrintedInt(n, rest);
        ReadNumberToken(s);
      case Dec(literal) =>
        if IsNonFinite(literal) {
          ReadNonFinite(literal, rest);
        } else {
          ReadPrintedDecimal(literal, rest);
          ReadNumberToken(s);
        }
    }
  }

  // ---------------------------------------------------------------- the reader, one token at a time

  /** An element and what comes behind it: a comma and more elements, or the closing bracket. */
  lemma ReadItemsAt(v: Json, c: Unit, s: Text)
    requires c == CLOSE_BRACKET || c == Units.COMMA
    ensures c == CLOSE_BRACKET ==> ReadItems(Value(v), [c] + s) == Ok(([v], s))
    ensures c == Units.COMMA && Read(s).Ok? ==>
      ReadItems(Value(v), [c] + s) == Prefixed(v, ReadItems(Read(s).value.0, Read(s).value.1))
    ensures c == Units.COMMA && Read(s).Err? ==> ReadItems(Value(v), [c] + s) == Err(Read(s).error)
  {
    ReadMark(c, s);
  }

  /** A colon and a value, then the rest of the members. */
  lemma ReadMemberAt(fields: map<Text, Json>, key: Text, s: Text, v: Json, rest: Text)
    requires Read(s) == Ok((Value(v), rest))
    ensures ReadMembers(fields, key, [Units.COLON] + s) == ReadMoreMembers(fields[key := v], rest)
  {
    ReadMark(Units.COLON, s);
  }

  lemma ReadMemberFails(fields: map<Text, Json>, key: Text, s: Text)
    requires Read(s).Err?
    ensures ReadMembers(fields, key, [Units.COLON] + s).Err?
  {
    ReadMark(Units.COLON, s);
  }

  /** What comes behind a value: the closing brace, or a comma and a string as the next key. */
  lemma ReadMoreAt(fields: map<Text, Json>, c: Unit, s: Text)
    requires c == CLOSE_BRACE || c == Units.COMMA
    ensures c == CLOSE_BRACE ==> ReadMoreMembers(fields, [c] + s) == Ok((fields, s))
    ensures c == Units.COMMA && Read(s).Ok? && Read(s).value.0.Value? && Read(s).value.0.json.Str? ==>
      var next := Read(s).value.0.json.s;
      ReadMoreMembers(fields, [c] + s) ==
        if IsPunctuation(next) then Err(Malformed) else ReadMembers(fields, next, Read(s).value.1)
  {
    ReadMark(c, s);
  }

  // ---------------------------------------------------------------- documents

  lemma NoItems()
    ensures PrintItems([]) == [CLOSE_BRACKET] && PrintMembers([]) == [CLOSE_BRACE]
  {
  }

  /** The printed text of a document, with anything behind it that does not continue it, read. */
  lemma {:induction false} ReadPrinted(d: Doc, rest: Text)
    requires WellFormed(d) && Ends(d, rest)
    ensures Readable(d) ==> Read(Print(d) + rest) == Ok((Value(ValueOf(d)), rest))
    ensures !Readable(d) ==> Read(Print(d) + rest).Err?
    decreases d, 0
  {
    hide PrintItems, PrintMembers, ReadItems, ReadMembers;
    var s := Print(d) + rest;
    match d {
      case Scalar(v) =>
        ReadScalar(v, rest);
      case Array(items) =>
        assert s[1..] == PrintItems(items) + rest;
        ReadAt(s);
        if items == [] {
          NoItems();
          ReadMark(CLOSE_BRACKET, rest);
        } else {
          ReadPrintedItems(items, rest);
        }
      case Object(members) =>
        assert s[1..] == PrintMembers(members) + rest;
        assert Readable(d) <==> AllMembersReadable(members);
        ReadAt(s);
        if members == [] {
          NoItems();
          ReadMark(CLOSE_BRACE, rest);
        } else {
          ReadPrintedMembers(map[], members, rest);
          assert map[] + FieldsOf(members) == FieldsOf(members);
        }
    }
  }

  /** What `ReadArray` makes of printed elements: the first token and the elements from it on. */
  lemma {:induction false} ReadPrintedItems(items: seq<Doc>, rest: Text)
    requires items != [] && AllWellFormed(items)
    ensures var r := Read(PrintItems(items) + rest);
            (AllReadable(items) ==>
              r.Ok? && r.value.0.Value? && ReadItems(r.value.0, r.value.1) == Ok((ValuesOf(items), rest)))
            && (!AllReadable(items) ==>
              r.Ok? ==> r.value.0.Value? && ReadItems(r.value.0, r.value.1).Err?)
    decreases items, 0
  {
    hide ReadItems, Read;
    var more := if items[1..] == [] then rest else PrintItems(items[1..]) + rest;
    var c := if items[1..] == [] then CLOSE_BRACKET else Units.COMMA;
    PrintedItems(items, rest, c, more);
    ReadPrinted(items[0], [c] + more);
    ReadItemsAt(ValueOf(items[0]), c, more);
    if items[1..] != [] {
      ReadPrintedItems(items[1..], rest);
    } else {
      assert AllReadable(items[1..]) && ValuesOf(items) == [ValueOf(items[0])];
    }
  }

  /** `ReadObject` on printed members: the first key, which is always a string, and the members from it on. */
  lemma {:induction false} ReadPrintedMembers(fields: map<Text, Json>, members: seq<Member>, rest: Text)
    requires members != [] && MembersWellFormed(members)
    ensures var r := Read(PrintMembers(members) + rest);
            r.Ok? && r.value.0 == Value(Str(members[0].key))
            && (AllMembersReadable(members) ==>
              ReadMembers(fields, members[0].key, r.value.1) == Ok((fields + FieldsOf(members), rest)))
            && (!AllMembersReadable(members) ==> ReadMembers(fields, members[0].key, r.value.1).Err?)
    decreases members, 1
  {
    hide ReadMembers, ReadMoreMembers, Read, FieldsOf;
    var m := members[0];
    var after := AfterMember(members[1..]) + rest;
    var s := Print(m.doc) + after;
    Regroup(Quoted(m.key), Print(m.doc), AfterMember(members[1..]), rest);
    ReadQuoted(m.key, [Units.COLON] + s);
    AfterStarts(members[1..], rest);
    ReadPrinted(m.doc, after);
    if Readable(m.doc) {
      ReadMemberAt(fields, m.key, s, ValueOf(m.doc), after);
      ReadPrintedMore(fields[m.key := ValueOf(m.doc)], members[1..], rest);
      FieldsGrow(fields, members);
    } else {
      ReadMemberFails(fields, m.key, s);
    }
  }

  lemma AfterStarts(members: seq<Member>, rest: Text)
    requires MembersWellFormed(members)
    ensures EndsNumber(AfterMember(members) + rest)
  {
  }

  /** The members behind a value: nothing but the closing brace, or a comma, a key and the members from it on. */
  lemma {:induction false} ReadPrintedMore(fields: map<Text, Json>, members: seq<Member>, rest: Text)
    requires MembersWellFormed(members)
    ensures var r := ReadMoreMembers(fields, AfterMember(members) + rest);
            && (LaterReadable(members) ==> r == Ok((fields + FieldsOf(members), rest)))
            && (!LaterReadable(members) ==> r.Err?)
    decreases members, 2
  {
    hide ReadMembers, ReadMoreMembers, Read;
    if members == [] {
      ReadMoreAt(fields, CLOSE_BRACE, rest);
      assert fields + map[] == fields;
    } else {
      ReadMoreAt(fields, Units.COMMA, PrintMembers(members) + rest);
      Regrouped([Units.COMMA], PrintMembers(members), rest);
      ReadPrintedMembers(fields, members, rest);
    }
  }

  lemma FieldsGrow(fields: map<Text, Json>, members: seq<Member>)
    requires members != []
    ensures fields[members[0].key := ValueOf(members[0].doc)] + FieldsOf(members[1..]) == fields + FieldsOf(members)
  {
  }

  lemma PrintedItems(items: seq<Doc>, rest: Text, c: Unit, more: Text)
    requires items != [] && AllWellFormed(items)
    requires more == if items[1..] == [] then rest else PrintItems(items[1..]) + rest
    requires c == if items[1..] == [] then CLOSE_BRACKET else Units.COMMA
    ensures PrintItems(items) + rest == Print(items[0]) + ([c] + more)
  {
    assert AfterItem(items[1..]) + rest == [c] + more;
    Regrouped(Print(items[0]), AfterItem(items[1..]), rest);
  }

  lemma Regroup(a: Text, b: Text, c: Text, rest: Text)
    ensures (a + ([Units.COLON] + (b + c))) + rest == a + ([Units.COLON] + (b + (c + rest)))
  {
    Regrouped(b, c, rest);
    Regrouped([Units.COLON], b + c, rest);
    Regrouped(a, [Units.COLON] + (b + c), rest);
  }

  /**
   * The main result: a printed value is read back as itself exactly when the document is readable, whatever order its
   * objects were visited in and whatever text follows; the reader stops where the value ends.
   */
  lemma ParserUndoesPrinter(v: Json, d: Doc, rest: Text)
    requires Visits(d, v) && Ends(d, rest)
    ensures Readable(d) <==> Read(Print(d) + rest) == Ok((Value(v), rest))
    ensures Readable(d) <==> Read(Print(d) + rest).Ok?
    ensures Readable(d) <==> ReadJson(Print(d) + rest) == Ok(v)
  {
    ReadPrinted(d, rest);
  }

  /** A second key that is a colon makes the text unreadable; the same key visited first does not. */
  lemma PunctuationKeyFails()
    ensures var first := Object([Member([Units.COLON], Scalar(Null)), Member([], Scalar(Null))]);
            var second := Object([Member([], Scalar(Null)), Member([Units.COLON], Scalar(Null))]);
            WellFormed(first) && WellFormed(second) && ValueOf(first) == ValueOf(second)
            && ReadJson(Print(first)) == Ok(ValueOf(first)) && ReadJson(Print(second)).Err?
  {
    var a := Member([Units.COLON], Scalar(Null));
    var b := Member([], Scalar(Null));
    var first, second := Object([a, b]), Object([b, a]);
    assert [a, b][1..] == [b] && [b, a][1..] == [a];
    OneMember(a);
    OneMember(b);
    ParserUndoesPrinter(ValueOf(first), first, []);
    ParserUndoesPrinter(ValueOf(second), second, []);
    assert Print(first) + [] == Print(first) && Print(second) + [] == Print(second);
  }

  lemma OneMember(m: Member)
    requires m.doc == Scalar(Null)
    ensures MembersWellFormed([m]) && FieldsOf([m]) == map[m.key := Null]
    ensures LaterReadable([m]) <==> !IsPunctuation(m.key)
  {
    var ms := [m];
    assert ms[1..] == [];
  }
}
