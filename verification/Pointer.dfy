/** `Json.resolvePointer`, and JSON pointers as RFC 6901 builds them from a path. */
module Pointers {
  import opened Units
  import opened JsonValues
  import opened Numbers

  const TILDE: Unit := 0x7E
  const ONE: Unit := 0x31
  const INTEGER_MIN := -0x8000_0000
  const INTEGER_MAX := 0x7FFF_FFFF

  // ---------------------------------------------------------------- strings

  /** The stretches of `t` between the marks. */
  function Pieces(t: Text, mark: Unit): (parts: seq<Text>)
    ensures parts != []
    ensures forall i :: 0 <= i < |parts| ==> mark !in parts[i]
  {
    if t == [] then [[]]
    else
      var rest := Pieces(t[1..], mark);
      if t[0] == mark then [[]] + rest else [[t[0]] + rest[0]] + rest[1..]
  }

  function WithoutTrailingEmpty(parts: seq<Text>): seq<Text> {
    if parts != [] && parts[|parts| - 1] == [] then WithoutTrailingEmpty(parts[..|parts| - 1]) else parts
  }

  /** `split` at one character. */
  function Split(t: Text, mark: Unit): seq<Text> {
    if mark in t then WithoutTrailingEmpty(Pieces(t, mark)) else [t]
  }

  /** `replace` of a tilde and `mark` by `c`, from left to right. */
  function Replaced(t: Text, mark: Unit, c: Unit): Text {
    if t == [] then []
    else if t[0] == TILDE && |t| >= 2 && t[1] == mark then [c] + Replaced(t[2..], mark, c)
    else [t[0]] + Replaced(t[1..], mark, c)
  }

  function Unescaped(p: Text): Text {
    Replaced(Replaced(p, ONE, SLASH), ZERO, TILDE)
  }

  // ---------------------------------------------------------------- resolving

  /** One part of the pointer, from a node that may be the Java null. */
  function Into(node: Option<Json>, p: Text): Result<Option<Json>> {
    if p == [] then Ok(node)
    else
      var name := Unescaped(p);
      match node
      case None => Err(NullPointer)
      case Some(Arr(items)) =>
        (match ParseInteger(name, INTEGER_MIN, INTEGER_MAX)
         case None => Err(NumberFormat)
         case Some(i) => if 0 <= i < |items| then Ok(Some(items[i])) else Err(OutOfBounds))
      case Some(Obj(fields)) => Ok(if name in fields then Some(fields[name]) else None)
      case _ => Err(Unresolvable)
  }

  function ResolveParts(parts: seq<Text>, node: Option<Json>): Result<Option<Json>> {
    if parts == [] then Ok(node)
    else
      var next :- Into(node, parts[0]);
      ResolveParts(parts[1..], next)
  }

  /** The node a pointer leads to, or the Java null. */
  function Resolve(pointer: Text, top: Json): Result<Option<Json>> {
    ResolveParts(Split(pointer, SLASH), Some(top))
  }

  method ResolvePointer(pointer: Text, top: Json) returns (r: Result<Option<Json>>)
    ensures r == Resolve(pointer, top)
  {
    var parts := Split(pointer, SLASH);
    var node: Option<Json> := Some(top);
    for i := 0 to |parts|
      invariant ResolveParts(parts, Some(top)) == ResolveParts(parts[i..], node)
    {
      assert parts[i..][1..] == parts[i + 1..];
      if parts[i] != [] {
        node :- Into(node, parts[i]);
      }
    }
    return Ok(node);
  }

  // ---------------------------------------------------------------- paths

  datatype Turn = Key(name: Text) | Index(position: nat)

  /** Where a path leads, if it leads anywhere. */
  function Follow(path: seq<Turn>, top: Json): Option<Json> {
    if path == [] then Some(top)
    else if path[0].Key? && top.Obj? && path[0].name in top.fields then Follow(path[1..], top.fields[path[0].name])
    else if path[0].Index? && top.Arr? && path[0].position < |top.items| then Follow(path[1..], top.items[path[0].position])
    else None
  }

  function Escaped(name: Text): (t: Text)
    ensures SLASH !in t
    ensures t == [] <==> name == []
  {
    if name == [] then []
    else (if name[0] == TILDE then [TILDE, ZERO] else if name[0] == SLASH then [TILDE, ONE] else [name[0]]) + Escaped(name[1..])
  }

  function TokenOf(turn: Turn): Text {
    match turn
    case Key(name) => Escaped(name)
    case Index(position) => PrintInt(position)
  }

  function PointerOf(path: seq<Turn>): Text {
    if path == [] then [] else [SLASH] + TokenOf(path[0]) + PointerOf(path[1..])
  }

  // ---------------------------------------------------------------- escaping

  /** The name with its tildes escaped and its slashes not. */
  function HalfEscaped(name: Text): Text {
    if name == [] then [] else (if name[0] == TILDE then [TILDE, ZERO] else [name[0]]) + HalfEscaped(name[1..])
  }

  lemma {:induction false} SlashesFirst(name: Text)
    ensures Replaced(Escaped(name), ONE, SLASH) == HalfEscaped(name)
  {
    if name != [] {
      var rest := Escaped(name[1..]);
      SlashesFirst(name[1..]);
      var t := Escaped(name);
      if name[0] == TILDE {
        assert t == [TILDE] + ([ZERO] + rest);
        assert ([ZERO] + rest)[1..] == rest;
      } else if name[0] == SLASH {
        assert t == [TILDE, ONE] + rest;
      } else {
        assert t == [name[0]] + rest;
      }
    }
  }

  lemma {:induction false} ThenTildes(name: Text)
    ensures Replaced(HalfEscaped(name), ZERO, TILDE) == name
  {
    if name != [] {
      var rest := HalfEscaped(name[1..]);
      ThenTildes(name[1..]);
      assert name == [name[0]] + name[1..];
      if name[0] == TILDE {
        assert HalfEscaped(name) == [TILDE, ZERO] + rest;
      } else {
        assert HalfEscaped(name) == [name[0]] + rest;
      }
    }
  }

  /** Slashes are put back first, then tildes: every name comes back. */
  lemma UnescapedEscaped(name: Text)
    ensures Unescaped(Escaped(name)) == name
  {
    SlashesFirst(name);
    ThenTildes(name);
  }

  /** The other order loses the name `~1`. */
  lemma OtherOrderFails()
    ensures var name: Text := [TILDE, ONE];
            Replaced(Replaced(Escaped(name), ZERO, TILDE), ONE, SLASH) == [SLASH] != name
  {
    var name: Text := [TILDE, ONE];
    assert Escaped(name[1..]) == [ONE];
    var t: Text := [TILDE, ZERO, ONE];
    assert Escaped(name) == t;
    assert t[2..] == [ONE];
    assert Replaced([ONE], ZERO, TILDE) == [ONE];
    assert Replaced(t, ZERO, TILDE) == name;
    assert name[2..] == [];
  }

  // ---------------------------------------------------------------- splitting

  function Tokens(path: seq<Turn>): (parts: seq<Text>)
    ensures |parts| == |path|
  {
    if path == [] then [] else [TokenOf(path[0])] + Tokens(path[1..])
  }

  lemma PrintedHasNoSlash(n: nat)
    ensures SLASH !in PrintInt(n) && PrintInt(n) != []
  {
  }

  lemma {:induction false} PiecesOf(token: Text, rest: Text, mark: Unit)
    requires mark !in token && (rest == [] || rest[0] == mark)
    ensures Pieces(token + rest, mark) == if rest == [] then [token] else [token] + Pieces(rest[1..], mark)
    decreases |token|
  {
    if token == [] {
      assert token + rest == rest;
    } else {
      assert (token + rest)[1..] == token[1..] + rest;
      PiecesOf(token[1..], rest, mark);
      assert token == [token[0]] + token[1..];
    }
  }

  lemma TokenHasNoSlash(turn: Turn)
    ensures SLASH !in TokenOf(turn) && (TokenOf(turn) == [] <==> turn == Key([]))
  {
    if turn.Index? {
      PrintedHasNoSlash(turn.position);
    }
  }

  lemma {:induction false} PiecesOfPointer(path: seq<Turn>)
    requires path != []
    ensures PointerOf(path) != [] && PointerOf(path)[0] == SLASH
    ensures Pieces(PointerOf(path)[1..], SLASH) == Tokens(path)
  {
    hide TokenOf, Pieces;
    var token, rest := TokenOf(path[0]), PointerOf(path[1..]);
    assert PointerOf(path) == [SLASH] + token + rest;
    assert PointerOf(path)[1..] == token + rest;
    TokenHasNoSlash(path[0]);
    if path[1..] == [] {
      assert rest == [] && Tokens(path[1..]) == [];
    } else {
      PiecesOfPointer(path[1..]);
    }
    PiecesOf(token, rest, SLASH);
  }

  /** Parts left out by `split` for being empty at the end would be passed over anyway. */
  lemma {:induction false} TrailingEmptyPartsSkipped(parts: seq<Text>, node: Option<Json>)
    ensures ResolveParts(WithoutTrailingEmpty(parts), node) == ResolveParts(parts, node)
  {
    var n := |parts| - 1;
    if parts != [] && parts[n] == [] {
      TrailingEmptyPartsSkipped(parts[..n], node);
      EmptyPartLast(parts[..n], node);
      assert parts == parts[..n] + [[]];
    }
  }

  lemma {:induction false} EmptyPartLast(parts: seq<Text>, node: Option<Json>)
    ensures ResolveParts(parts + [[]], node) == ResolveParts(parts, node)
  {
    if parts == [] {
      assert parts + [[]] == [[]];
    } else {
      assert (parts + [[]])[1..] == parts[1..] + [[]];
      var next := Into(node, parts[0]);
      if next.Ok? {
        EmptyPartLast(parts[1..], next.value);
      }
    }
  }

  // ---------------------------------------------------------------- the round trip

  predicate SmallIndices(path: seq<Turn>) {
    forall i :: 0 <= i < |path| && path[i].Index? ==> path[i].position <= INTEGER_MAX
  }

  /** The path without its empty keys. */
  function WithoutEmptyKeys(path: seq<Turn>): seq<Turn> {
    if path == [] then []
    else if path[0] == Key([]) then WithoutEmptyKeys(path[1..])
    else [path[0]] + WithoutEmptyKeys(path[1..])
  }

  lemma ParsesPrinted(n: nat)
    requires n <= INTEGER_MAX
    ensures Unescaped(PrintInt(n)) == PrintInt(n)
    ensures ParseInteger(PrintInt(n), INTEGER_MIN, INTEGER_MAX) == Some(n)
  {
    var t := PrintInt(n);
    assert t == Digits(n);
    DigitsHaveTheirValue(n);
    NoTilde(t, ONE, SLASH);
    NoTilde(t, ZERO, TILDE);
    assert IsDigit(t[0]);
  }

  lemma {:induction false} NoTilde(t: Text, mark: Unit, c: Unit)
    requires TILDE !in t
    ensures Replaced(t, mark, c) == t
  {
    if t != [] {
      NoTilde(t[1..], mark, c);
    }
  }

  lemma TokenLeads(path: seq<Turn>, top: Json)
    requires path != [] && path[0] != Key([]) && SmallIndices(path) && Follow([path[0]], top).Some?
    ensures Into(Some(top), TokenOf(path[0])) == Ok(Follow([path[0]], top))
  {
    hide DigitsValue, Digits, Replaced, Escaped;
    TokenHasNoSlash(path[0]);
    match path[0]
    case Key(name) => UnescapedEscaped(name);
    case Index(position) => ParsesPrinted(position);
  }

  lemma FollowOne(path: seq<Turn>, top: Json)
    requires path != [] && Follow(path, top).Some?
    ensures Follow([path[0]], top).Some? && Follow(path, top) == Follow(path[1..], Follow([path[0]], top).value)
  {
    assert [path[0]][1..] == [];
  }

  lemma {:induction false} TokensLead(path: seq<Turn>, top: Json)
    requires SmallIndices(path) && Follow(WithoutEmptyKeys(path), top).Some?
    ensures ResolveParts(Tokens(path), Some(top)) == Ok(Follow(WithoutEmptyKeys(path), top))
    decreases path
  {
    hide Into, TokenOf, Follow;
    if path == [] {
      FollowNothing(top);
    } else {
      assert Tokens(path)[0] == TokenOf(path[0]) && Tokens(path)[1..] == Tokens(path[1..]);
      if path[0] == Key([]) {
        EmptyPartFirst(path[0], Some(top));
        TokensLead(path[1..], top);
      } else {
        assert WithoutEmptyKeys(path) == [path[0]] + WithoutEmptyKeys(path[1..]);
        assert WithoutEmptyKeys(path)[1..] == WithoutEmptyKeys(path[1..]);
        FollowOne(WithoutEmptyKeys(path), top);
        TokenLeads(path, top);
        TokensLead(path[1..], Follow([path[0]], top).value);
      }
    }
  }

  lemma FollowNothing(top: Json)
    ensures Follow([], top) == Some(top)
  {
  }

  lemma EmptyPartFirst(turn: Turn, node: Option<Json>)
    requires turn == Key([])
    ensures Into(node, TokenOf(turn)) == Ok(node)
  {
  }

  /** Resolving a pointer goes through the tokens of its path. */
  lemma PointerTokens(path: seq<Turn>, top: Json)
    ensures Resolve(PointerOf(path), top) == ResolveParts(Tokens(path), Some(top))
  {
    var t := PointerOf(path);
    if path == [] {
      assert Split(t, SLASH) == [[]];
      assert Split(t, SLASH)[1..] == [];
      assert ResolveParts([], Some(top)) == Ok(Some(top));
    } else {
      PiecesOfPointer(path);
      assert Pieces(t, SLASH) == [[]] + Tokens(path);
      TrailingEmptyPartsSkipped(Pieces(t, SLASH), Some(top));
      assert ([[]] + Tokens(path))[1..] == Tokens(path);
    }
  }

  /** Every pointer leads where its path leads once the empty keys are left out. */
  lemma PointerLeads(path: seq<Turn>, top: Json)
    requires SmallIndices(path) && Follow(WithoutEmptyKeys(path), top).Some?
    ensures Resolve(PointerOf(path), top) == Ok(Follow(WithoutEmptyKeys(path), top))
  {
    PointerTokens(path, top);
    TokensLead(path, top);
  }

  lemma {:induction false} NamedAlready(path: seq<Turn>)
    requires Key([]) !in path
    ensures WithoutEmptyKeys(path) == path
  {
    if path != [] {
      NamedAlready(path[1..]);
    }
  }

  /** `resolvePointer` inverts the construction of pointers, for every valid path without empty keys. */
  lemma ResolveInvertsPointer(path: seq<Turn>, top: Json)
    requires SmallIndices(path) && Key([]) !in path && Follow(path, top).Some?
    ensures Resolve(PointerOf(path), top) == Ok(Follow(path, top))
  {
    NamedAlready(path);
    PointerLeads(path, top);
  }

  // ---------------------------------------------------------------- empty keys

  predicate Inverts(path: seq<Turn>, top: Json) {
    Follow(path, top).Some? ==> Resolve(PointerOf(path), top) == Ok(Follow(path, top))
  }

  /** The smallest document through which a path leads: to a null, and nowhere else. */
  function Narrow(path: seq<Turn>): Json {
    if path == [] then Null
    else
      match path[0]
      case Key(name) => Obj(map[name := Narrow(path[1..])])
      case Index(position) => Arr(seq(position + 1, i => Narrow(path[1..])))
  }

  lemma {:induction false} NarrowLeads(path: seq<Turn>)
    ensures Follow(path, Narrow(path)) == Some(Null)
  {
    if path != [] {
      NarrowLeads(path[1..]);
    }
  }

  lemma {:induction false} NoneStaysNone(parts: seq<Text>)
    ensures ResolveParts(parts, None) in {Ok(None), Err(NullPointer)}
  {
    if parts != [] {
      NoneStaysNone(parts[1..]);
    }
  }

  /** At an object whose only key is empty nothing leads on: no part that is passed over, and no other. */
  lemma {:induction false} StaysAtEmptyKey(parts: seq<Text>, v: Json)
    ensures ResolveParts(parts, Some(Obj(map[[] := v]))) != Ok(Some(Null))
  {
    if parts != [] {
      if parts[0] == [] {
        StaysAtEmptyKey(parts[1..], v);
      } else {
        assert Unescaped(parts[0]) != [];
        NoneStaysNone(parts[1..]);
      }
    }
  }

  lemma {:induction false} NarrowMissed(path: seq<Turn>)
    requires SmallIndices(path) && Key([]) in path
    ensures ResolveParts(Tokens(path), Some(Narrow(path))) != Ok(Some(Null))
  {
    hide Into, TokenOf;
    if path[0] == Key([]) {
      StaysAtEmptyKey(Tokens(path), Narrow(path[1..]));
    } else {
      assert [path[0]][1..] == [];
      TokenLeads(path, Narrow(path));
      assert path == [path[0]] + path[1..];
      NarrowMissed(path[1..]);
    }
  }

  /** A pointer inverts its path in every document the path leads through exactly when no key on it is empty. */
  lemma InvertedIffNamed(path: seq<Turn>)
    requires SmallIndices(path)
    ensures (forall top :: Inverts(path, top)) <==> Key([]) !in path
  {
    hide Follow;
    if Key([]) !in path {
      forall top
        ensures Inverts(path, top)
      {
        if Follow(path, top).Some? {
          ResolveInvertsPointer(path, top);
        }
      }
    } else {
      NarrowLeads(path);
      NarrowMissed(path);
      PointerTokens(path, Narrow(path));
      assert !Inverts(path, Narrow(path));
    }
  }

  /** RFC 6901 lets `/` name the field with the empty name; here it names the whole document. */
  lemma EmptyKeyMissed(v: Json)
    requires v.Null?
    ensures var top, path := Obj(map[[] := v]), [Key([])];
            Follow(path, top) == Some(v) && Resolve(PointerOf(path), top) == Ok(Some(top)) && v != top
  {
    var top, path := Obj(map[[] := v]), [Key([])];
    assert path[1..] == [];
    assert WithoutEmptyKeys(path) == [];
    PointerLeads(path, top);
  }
}
