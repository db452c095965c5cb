/** `Reader`: the parser as it runs, with one unit of look-ahead and a token field. */
module ReaderClass {
  import opened Units
  import opened JsonValues
  import opened Numbers
  import opened ReaderSpec

  /** A recursive reading of a rest, put behind what a loop has collected before it. */
  function Onto<T>(prefix: seq<T>, r: Result<(seq<T>, Text)>): Result<(seq<T>, Text)> {
    if r.Ok? then Ok((prefix + r.value.0, r.value.1)) else r
  }

  lemma OntoNothing<T>(r: Result<(seq<T>, Text)>)
    ensures Onto([], r) == r
  {
    assert r.Ok? ==> [] + r.value.0 == r.value.0;
  }

  lemma OntoEnd<T>(prefix: seq<T>, rest: Text)
    ensures Onto(prefix, Ok(([], rest))) == Ok((prefix, rest))
  {
    assert prefix + [] == prefix;
  }

  lemma OntoPush<T>(prefix: seq<T>, x: T, r: Result<(seq<T>, Text)>)
    ensures Onto(prefix, Prefixed(x, r)) == Onto(prefix + [x], r)
  {
    assert r.Ok? ==> prefix + ([x] + r.value.0) == prefix + [x] + r.value.0;
  }

  /** A backslash before a unit that has no meaning of its own is as good as absent. */
  lemma PlainEscape(s: Text)
    requires |s| >= 1 && s[0] == BACKSLASH && (|s| >= 2 ==> !IsEscape(s[1]) && s[1] != LOWER_U)
    ensures ReaderSpec.ReadString(s) == ReaderSpec.ReadString(s[1..])
  {
    if |s| >= 2 {
      assert s[1..][1..] == s[2..];
    }
  }

  lemma TakeDigitsStep(added: Text, s: Text)
    requires StartsWithDigit(s)
    ensures added + TakeDigits(s).0 == added + [s[0]] + TakeDigits(s[1..]).0
    ensures TakeDigits(s).1 == TakeDigits(s[1..]).1
  {
    Regrouped(added, [s[0]], TakeDigits(s[1..]).0);
  }

  lemma Behind(a: Text, b: Text)
    ensures (a + b)[|a|..] == b
  {
  }

  lemma ScanByParts(s: Text)
    ensures var p0 := TakeSign(s);
            var p1 := TakeDigits(p0.1);
            var p2 := TakeFraction(p1.1);
            var p3 := TakeExponent(p2.1);
            ScanNumber(s) == (NumberText(p0.0, p1.0, p2.0, p3.0), p3.1)
  {
  }

  class Reader {
    var text: Text
    var index: nat
    var c: Unit
    var token: Token
    var buf: Text

    /** The unit field mirrors the iterator. */
    ghost predicate Valid()
      reads this
    {
      index <= |text| && c == if index < |text| then text[index] else DONE
    }

    ghost function Rest(): Text
      requires Valid()
      reads this
    {
      text[index..]
    }

    constructor (input: Text)
      ensures Valid() && Rest() == input
    {
      text, index, buf := input, 0, [];
      c := if input == [] then DONE else input[0];
      token := Punctuation(Comma);
    }

    method Next() returns (o: Outcome)
      requires Valid()
      modifies this`index, this`c
      ensures Valid()
      ensures o == if old(Rest()) == [] then Err(Malformed) else Ok(())
      ensures Rest() == if old(Rest()) == [] then [] else old(Rest())[1..]
    {
      if index == |text| {
        return Err(Malformed);
      }
      index := index + 1;
      c := if index < |text| then text[index] else DONE;
      return Ok(());
    }

    method Previous()
      requires Valid() && index > 0
      modifies this`index, this`c
      ensures Valid() && index == old(index) - 1
    {
      index := index - 1;
      c := text[index];
    }

    // -------------------------------------------------------------- white space and comments

    method SkipBlockComment() returns (o: Outcome)
      requires Valid() && Rest() != [] && c == STAR
      modifies this`index, this`c
      ensures Valid()
      ensures var r := SkipBlock(old(Rest()));
              (r.Ok? ==> o == Ok(()) && Rest() == r.value) && (r.Err? ==> o == Err(r.error))
    {
      while c != DONE
        invariant Valid()
        invariant SkipBlock(Rest()) == SkipBlock(old(Rest()))
        decreases |text| - index
      {
        o := Next();
        if c == STAR {
          o := Next();
          if c == SLASH {
            return Ok(());
          }
        }
      }
      return Err(Malformed);
    }

    method SkipLineComment()
      requires Valid()
      modifies this`index, this`c
      ensures Valid() && Rest() == SkipLine(old(Rest()))
    {
      while c != NEWLINE && c != DONE
        invariant Valid()
        invariant SkipLine(Rest()) == SkipLine(old(Rest()))
        decreases |text| - index
      {
        var _ := Next();
      }
    }

    /** Each round of the loop steps behind one white space unit or one comment. */
    method SkipWhite() returns (o: Outcome)
      requires Valid()
      modifies this`index, this`c
      ensures Valid()
      ensures var r := SkipWhiteSpace(old(Rest()));
              (r.Ok? ==> o == Ok(()) && Rest() == r.value) && (r.Err? ==> o == Err(r.error))
    {
      while true
        invariant Valid()
        invariant SkipWhiteSpace(Rest()) == SkipWhiteSpace(old(Rest()))
        decreases |text| - index
      {
        if IsWhitespace(c) {
        } else if c == SLASH {
          o := Next();
          if c == STAR {
            var _ :- SkipBlockComment();
          } else if c == SLASH {
            SkipLineComment();
          } else {
            Previous();
            return Ok(());
          }
        } else {
          return Ok(());
        }
        var _ :- Next();
        if c == DONE {
          return Ok(());
        }
      }
    }

    // -------------------------------------------------------------- strings and numbers

    method Add(cc: Unit) returns (o: Outcome)
      requires Valid()
      modifies this`index, this`c, this`buf
      ensures Valid() && buf == old(buf) + [cc]
      ensures o == if old(Rest()) == [] then Err(Malformed) else Ok(())
      ensures Rest() == if old(Rest()) == [] then [] else old(Rest())[1..]
    {
      buf := buf + [cc];
      o := Next();
    }

    /** From the `u` of an escape to the last of the four units behind it. */
    method UnicodeUnit() returns (r: Result<Unit>)
      requires Valid() && Rest() != []
      modifies this`index, this`c
      ensures Valid()
      ensures |old(Rest())| >= 5 ==> r == Ok(HexUnit(old(Rest())[1..])) && Rest() == old(Rest())[4..]
      ensures |old(Rest())| == 4 ==> r.Ok? && Rest() == []
      ensures |old(Rest())| < 4 ==> r == Err(Malformed)
    {
      var value := 0;
      for i := 0 to 4
        invariant Valid() && i <= |old(Rest())|
        invariant Rest() == old(Rest())[i..]
        invariant 0 <= value
        invariant i == 0 ==> value == 0
        invariant i == 1 ==> value < 0x10
        invariant i == 2 ==> value < 0x100
        invariant i == 3 ==> value < 0x1000
        invariant i == 4 ==> value < 0x10000
        invariant |old(Rest())| >= 5 ==> var s := old(Rest());
          value == if i == 0 then 0 else if i == 1 then AddHex(0, s[1])
                   else if i == 2 then AddHex(AddHex(0, s[1]), s[2])
                   else if i == 3 then AddHex(AddHex(AddHex(0, s[1]), s[2]), s[3])
                   else HexUnit(s[1..])
      {
        var _ :- Next();
        value := AddHex(value, c);
      }
      return Ok(value);
    }

    method ReadStringBody() returns (r: Result<Json>)
      requires Valid()
      modifies this`index, this`c, this`buf
      ensures Valid()
      ensures var spec := ReaderSpec.ReadString(old(Rest()));
              (spec.Ok? ==> r == Ok(Str(spec.value.0)) && Rest() == spec.value.1) && (spec.Err? ==> r == Err(spec.error))
    {
      buf := [];
      OntoNothing(ReaderSpec.ReadString(Rest()));
      while c != QUOTE
        invariant Valid()
        invariant ReaderSpec.ReadString(old(Rest())) == Onto(buf, ReaderSpec.ReadString(Rest()))
        decreases |text| - index
      {
        ghost var s := Rest();
        if c == BACKSLASH {
          var _ := Next();
          if c == LOWER_U {
            var u :- UnicodeUnit();
            OntoPush(buf, u, ReaderSpec.ReadString(if |s| >= 6 then s[6..] else []));
            var _ :- Add(u);
            assert s[2..][4..] == s[6..] && s[1..][1..] == s[2..];
          } else if IsEscape(c) {
            OntoPush(buf, EscapeMeaning(c), ReaderSpec.ReadString(s[2..]));
            var _ := Add(EscapeMeaning(c));
          } else {
            PlainEscape(s);
          }
        } else {
          OntoPush(buf, c, ReaderSpec.ReadString(if s != [] then s[1..] else []));
          var _ :- Add(c);
        }
      }
      OntoEnd(buf, Rest()[1..]);
      var _ := Next();
      return Ok(Str(buf));
    }

    method AddDigits() returns (count: nat)
      requires Valid()
      modifies this`index, this`c, this`buf
      ensures Valid()
      ensures var spec := TakeDigits(old(Rest()));
              buf == old(buf) + spec.0 && Rest() == spec.1 && count == |spec.0|
    {
      count := 0;
      ghost var all := TakeDigits(Rest());
      ghost var added := [];
      assert [] + all.0 == all.0;
      DoneIsNoDigit();
      while IsDigit(c)
        invariant Valid()
        invariant buf == old(buf) + added && count == |added|
        invariant all.0 == added + TakeDigits(Rest()).0 && all.1 == TakeDigits(Rest()).1
        decreases |text| - index
      {
        TakeDigitsStep(added, Rest());
        Regrouped(old(buf), added, [c]);
        added := added + [c];
        var _ := Add(c);
        count := count + 1;
      }
      assert added + [] == added;
    }

    method AddFraction()
      requires Valid()
      modifies this`index, this`c, this`buf
      ensures Valid()
      ensures buf == old(buf) + TakeFraction(old(Rest())).0 && Rest() == TakeFraction(old(Rest())).1
    {
      if c == DOT {
        var _ := Add(c);
        Regrouped(old(buf), [DOT], TakeDigits(Rest()).0);
        var _ := AddDigits();
      }
    }

    method AddExponent()
      requires Valid()
      modifies this`index, this`c, this`buf
      ensures Valid()
      ensures buf == old(buf) + TakeExponent(old(Rest())).0 && Rest() == TakeExponent(old(Rest())).1
    {
      if IsExponentMark(c) {
        ghost var s := Rest();
        var _ := Add(c);
        if IsSign(c) {
          var _ := Add(c);
        }
        assert buf == old(buf) + s[..MarkLength(s)] && Rest() == s[MarkLength(s)..];
        Regrouped(old(buf), s[..MarkLength(s)], TakeDigits(Rest()).0);
        var _ := AddDigits();
      }
    }

    method AddSign()
      requires Valid()
      modifies this`index, this`c, this`buf
      ensures Valid()
      ensures buf == old(buf) + TakeSign(old(Rest())).0 && Rest() == TakeSign(old(Rest())).1
    {
      if c == MINUS {
        var _ := Add(c);
      }
    }

    /** The number text into the buffer, and where its parts lie. */
    method ScanText() returns (n: NumberText)
      requires Valid()
      modifies this`index, this`c, this`buf
      ensures Valid()
      ensures (n, Rest()) == ScanNumber(old(Rest()))
    {
      hide TakeSign, TakeDigits, TakeFraction, TakeExponent, ScanNumber;
      ghost var p0 := TakeSign(Rest());
      ghost var p1 := TakeDigits(p0.1);
      ghost var p2 := TakeFraction(p1.1);
      ghost var p3 := TakeExponent(p2.1);
      ScanByParts(Rest());
      buf := [];
      AddSign();
      var sign := buf;
      assert sign == p0.0;
      var start := |buf|;
      var _ := AddDigits();
      Behind(sign, p1.0);
      var whole := buf[start..];
      start := |buf|;
      Behind(buf, p2.0);
      AddFraction();
      var fraction := buf[start..];
      start := |buf|;
      Behind(buf, p3.0);
      AddExponent();
      n := NumberText(sign, whole, fraction, buf[start..]);
    }

    method ReadNumberText() returns (r: Result<Json>)
      requires Valid() && StartsNumber(Rest())
      modifies this`index, this`c, this`buf
      ensures Valid()
      ensures var spec := ReadNumber(old(Rest()));
              (spec.Ok? ==> r == Ok(spec.value.0) && Rest() == spec.value.1) && (spec.Err? ==> r == Err(spec.error))
    {
      var n := ScanText();
      return NumberOf(n);
    }

    // -------------------------------------------------------------- tokens

    /** The letters of a keyword behind its first one. */
    method ReadTail(tail: Text) returns (o: Outcome)
      requires Valid()
      requires forall i :: 0 <= i < |tail| ==> tail[i] != DONE
      modifies this`index, this`c
      ensures Valid()
      ensures o.Ok? <==> tail <= old(Rest())
      ensures o.Ok? ==> Rest() == old(Rest())[|tail|..]
      ensures o.Err? ==> o == Err(Malformed)
    {
      for i := 0 to |tail|
        invariant Valid() && i <= |old(Rest())| && tail[..i] == old(Rest())[..i] && Rest() == old(Rest())[i..]
      {
        if c != tail[i] {
          return Err(Malformed);
        }
        var _ := Next();
      }
      return Ok(());
    }

    /** A keyword or a number, its first unit `ch` already passed; `s` is the text from that unit on. */
    method ReadWord(ch: Unit, ghost s: Text) returns (r: Result<Json>)
      requires Valid() && index > 0 && s != [] && s[0] == ch && Rest() == s[1..] && text[index - 1..] == s
      requires ch != QUOTE && ch != OPEN_BRACKET && ch != CLOSE_BRACKET && ch != OPEN_BRACE && ch != CLOSE_BRACE
      requires ch != Units.COMMA && ch != Units.COLON
      modifies this`index, this`c, this`buf
      ensures Valid()
      ensures var spec := ReadToken(s);
              (spec.Ok? ==> spec.value.0.Value? && r == Ok(spec.value.0.json) && Rest() == spec.value.1)
              && (spec.Err? ==> r == Err(spec.error))
    {
      if ch == 0x74 {
        var _ :- ReadTail(TRUE_TAIL);
        return Ok(Bool(true));
      } else if ch == 0x66 {
        var _ :- ReadTail(FALSE_TAIL);
        return Ok(Bool(false));
      } else if ch == 0x6E {
        var _ :- ReadTail(NULL_TAIL);
        return Ok(Null);
      }
      Previous();
      if !(IsDigit(c) || c == MINUS) {
        return Err(Malformed);
      }
      r := ReadNumberText();
    }

    /** `read()`: leaves the token it gives back in the token field. */
    method ReadNext() returns (r: Result<Token>)
      requires Valid()
      modifies this
      ensures Valid() && text == old(text)
      ensures var spec := ReaderSpec.Read(old(Rest()));
              (spec.Ok? ==> r == Ok(spec.value.0) && token == spec.value.0 && Rest() == spec.value.1)
              && (spec.Err? ==> r == Err(spec.error))
      decreases |text| - index, 1
    {
      var _ :- SkipWhite();
      var ch := c;
      ghost var s := Rest();
      var _ :- Next();
      if ch == QUOTE {
        var v :- ReadStringBody();
        token := Value(v);
      } else if ch == OPEN_BRACKET {
        var items :- ReadArrayBody();
        token := Value(Arr(items));
      } else if ch == CLOSE_BRACKET {
        token := Punctuation(ArrayEnd);
      } else if ch == Units.COMMA {
        token := Punctuation(Comma);
      } else if ch == OPEN_BRACE {
        var fields :- ReadObjectBody();
        token := Value(Obj(fields));
      } else if ch == CLOSE_BRACE {
        token := Punctuation(ObjectEnd);
      } else if ch == Units.COLON {
        token := Punctuation(Colon);
      } else {
        var v :- ReadWord(ch, s);
        token := Value(v);
      }
      return Ok(token);
    }

    method ReadArrayBody() returns (r: Result<seq<Json>>)
      requires Valid()
      modifies this
      ensures Valid() && text == old(text)
      ensures var spec := ReadArray(old(Rest()));
              (spec.Ok? ==> r == Ok(spec.value.0) && Rest() == spec.value.1) && (spec.Err? ==> r == Err(spec.error))
      decreases |text| - index, 3
    {
      ghost var spec := ReadArray(Rest());
      var items := [];
      var value :- ReadNext();
      OntoNothing(ReadItems(value, Rest()));
      while token != Punctuation(ArrayEnd)
        invariant Valid() && text == old(text) && index > old(index)
        invariant token == Punctuation(ArrayEnd) ==> spec == Ok((items, Rest()))
        invariant token != Punctuation(ArrayEnd) ==> value == token && spec == Onto(items, ReadItems(value, Rest()))
        decreases |text| - index, token != Punctuation(ArrayEnd)
      {
        if value.Punctuation? {
          return Err(Malformed);
        }
        var separator :- ReadNext();
        ghost var before, element := items, value.json;
        items := items + [value.json];
        if separator == Punctuation(Comma) {
          value :- ReadNext();
          OntoPush(before, element, ReadItems(value, Rest()));
          if value == Punctuation(ArrayEnd) {
            return Err(Malformed);
          }
        } else if separator != Punctuation(ArrayEnd) {
          return Err(Malformed);
        }
      }
      return Ok(items);
    }

    /** `readObjectKey`; nothing when the object ends here. */
    method ReadObjectKey() returns (r: Result<seq<Text>>)
      requires Valid()
      modifies this
      ensures Valid() && text == old(text)
      ensures var spec := ReaderSpec.Read(old(Rest()));
              if spec.Err? then r == Err(spec.error)
              else
                && token == spec.value.0 && Rest() == spec.value.1
                && r == if token == Punctuation(ObjectEnd) then Ok([])
                        else if KeyOf(token).Err? then Err(KeyOf(token).error)
                        else Ok([KeyOf(token).value])
      decreases |text| - index, 2
    {
      var key :- ReadNext();
      if key == Punctuation(ObjectEnd) {
        return Ok([]);
      } else if key.Punctuation? {
        return Err(Malformed);
      }
      var name :- AsKey(key.json);
      return Ok([name]);
    }

    method ReadObjectBody() returns (r: Result<map<Text, Json>>)
      requires Valid()
      modifies this
      ensures Valid() && text == old(text)
      ensures var spec := ReadObject(old(Rest()));
              (spec.Ok? ==> r == Ok(spec.value.0) && Rest() == spec.value.1) && (spec.Err? ==> r == Err(spec.error))
      decreases |text| - index, 3
    {
      ghost var spec := ReadObject(Rest());
      var fields := map[];
      var key :- ReadObjectKey();
      while token != Punctuation(ObjectEnd)
        invariant Valid() && text == old(text) && index > old(index)
        invariant token == Punctuation(ObjectEnd) ==> spec == Ok((fields, Rest()))
        invariant token != Punctuation(ObjectEnd) ==> |key| == 1 && spec == ReadMembers(fields, key[0], Rest())
        decreases |text| - index, token != Punctuation(ObjectEnd)
      {
        var colon :- ReadNext();
        if colon != Punctuation(Colon) {
          return Err(Malformed);
        }
        var value :- ReadNext();
        if value.Punctuation? {
          return Err(ClassCast);
        }
        fields := fields[key[0] := value.json];
        var separator :- ReadNext();
        if separator == Punctuation(Comma) {
          key :- ReadObjectKey();
          if key == [] || IsPunctuation(key[0]) {
            return Err(Malformed);
          }
        } else if separator != Punctuation(ObjectEnd) {
          return Err(Malformed);
        }
      }
      return Ok(fields);
    }
  }

  /** `Json.read(String)`. */
  method JsonRead(input: Text) returns (r: Result<Json>)
    ensures r == ReadJson(input)
  {
    var reader := new Reader(input);
    var first :- reader.ReadNext();
    if first.Punctuation? {
      return Err(ClassCast);
    }
    return Ok(first.json);
  }
}
