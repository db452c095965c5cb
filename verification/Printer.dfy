/** The text of a JSON value, for every order in which the fields of its objects may be visited. */
module Printer {
  import opened Units
  import opened JsonValues
  import opened Numbers
  import opened Escaper

  /** A JSON value with the visiting order of every object in it chosen. */
  datatype Doc =
    | Scalar(json: Json)
    | Array(items: seq<Doc>)
    | Object(members: seq<Member>)

  datatype Member = Member(key: Text, doc: Doc)

  predicate IsScalar(v: Json) {
    !v.Arr? && !v.Obj?
  }

  // ---------------------------------------------------------------- the value in a document

  function ValueOf(d: Doc): Json
    decreases d
  {
    match d
    case Scalar(v) => v
    case Array(items) => Arr(ValuesOf(items))
    case Object(members) => Obj(FieldsOf(members))
  }

  function ValuesOf(items: seq<Doc>): (vs: seq<Json>)
    ensures |vs| == |items|
    decreases items
  {
    if items == [] then [] else [ValueOf(items[0])] + ValuesOf(items[1..])
  }

  function FieldsOf(members: seq<Member>): map<Text, Json>
    decreases members
  {
    if members == [] then map[]
    else map[members[0].key := ValueOf(members[0].doc)] + FieldsOf(members[1..])
  }

  /** Scalars hold scalars, numbers print as Java numbers do, and no object visits a key twice. */
  ghost predicate WellFormed(d: Doc)
    decreases d
  {
    match d
    case Scalar(v) => IsScalar(v) && (v.Dec? ==> IsFinite(v.literal) || IsNonFinite(v.literal))
    case Array(items) => AllWellFormed(items)
    case Object(members) => MembersWellFormed(members)
  }

  ghost predicate AllWellFormed(items: seq<Doc>)
    decreases items
  {
    items != [] ==> WellFormed(items[0]) && AllWellFormed(items[1..])
  }

  ghost predicate MembersWellFormed(members: seq<Member>)
    decreases members
  {
    members != [] ==>
      WellFormed(members[0].doc) && !HasKey(members[1..], members[0].key) && MembersWellFormed(members[1..])
  }

  predicate HasKey(members: seq<Member>, key: Text) {
    exists i :: 0 <= i < |members| && members[i].key == key
  }

  /** `d` is `v` with its objects visited in some order. */
  ghost predicate Visits(d: Doc, v: Json) {
    WellFormed(d) && ValueOf(d) == v
  }

  // ---------------------------------------------------------------- the text of a document

  function PrintScalar(v: Json): Text
    requires IsScalar(v)
  {
    match v
    case Null => [0x6E, 0x75, 0x6C, 0x6C]
    case Bool(b) => if b then [0x74, 0x72, 0x75, 0x65] else [0x66, 0x61, 0x6C, 0x73, 0x65]
    case Str(s) => Quoted(s)
    case Int(n) => PrintInt(n)
    case Dec(literal) => literal
  }

  function Quoted(s: Text): Text {
    [QUOTE] + (Escape(s) + [QUOTE])
  }

  function Print(d: Doc): Text
    requires WellFormed(d)
    decreases d, 0
  {
    match d
    case Scalar(v) => PrintScalar(v)
    case Array(items) => [OPEN_BRACKET] + PrintItems(items)
    case Object(members) => [OPEN_BRACE] + PrintMembers(members)
  }

  /** Elements with the commas between them and the bracket behind them. */
  function PrintItems(items: seq<Doc>): Text
    requires AllWellFormed(items)
    decreases items, 0
  {
    if items == [] then [CLOSE_BRACKET]
    else Print(items[0]) + AfterItem(items[1..])
  }

  function AfterItem(items: seq<Doc>): Text
    requires AllWellFormed(items)
    decreases items, 1
  {
    if items == [] then [CLOSE_BRACKET] else [Units.COMMA] + PrintItems(items)
  }

  /** Members with the commas between them and the brace behind them. */
  function PrintMembers(members: seq<Member>): Text
    requires MembersWellFormed(members)
    decreases members, 0
  {
    if members == [] then [CLOSE_BRACE]
    else Quoted(members[0].key) + ([Units.COLON] + (Print(members[0].doc) + AfterMember(members[1..])))
  }

  function AfterMember(members: seq<Member>): Text
    requires MembersWellFormed(members)
    decreases members, 1
  {
    if members == [] then [CLOSE_BRACE] else [Units.COMMA] + PrintMembers(members)
  }

  // ---------------------------------------------------------------- what is printed

  function WithCommas(parts: seq<Text>): Text {
    if parts == [] then []
    else if |parts| == 1 then parts[0]
    else parts[0] + [0x2C] + WithCommas(parts[1..])
  }

  /** The texts of some values, and of some members: a name in quotes, a colon, a value. */
  ghost predicate ArePrinted(parts: seq<Text>, items: seq<Doc>) {
    |parts| == |items| && forall i :: 0 <= i < |parts| ==> WellFormed(items[i]) && parts[i] == Print(items[i])
  }

  ghost predicate AreMembers(parts: seq<Text>, members: seq<Member>) {
    |parts| == |members| && forall i :: 0 <= i < |parts| ==>
      WellFormed(members[i].doc) && parts[i] == [0x22] + Escape(members[i].key) + [0x22, 0x3A] + Print(members[i].doc)
  }

  /** An array is its elements with commas between them, in brackets. */
  lemma ArraySaid(items: seq<Doc>, parts: seq<Text>)
    requires AllWellFormed(items) && ArePrinted(parts, items)
    ensures Print(Array(items)) == [0x5B] + WithCommas(parts) + [0x5D]
  {
    ItemsSaid(items, parts);
    hide PrintItems, WithCommas, ArePrinted, AllWellFormed;
    Regrouped([0x5B], WithCommas(parts), [0x5D]);
  }

  lemma {:induction false} ItemsSaid(items: seq<Doc>, parts: seq<Text>)
    requires AllWellFormed(items) && ArePrinted(parts, items)
    ensures PrintItems(items) == WithCommas(parts) + [0x5D]
    decreases |items|
  {
    if items != [] {
      assert parts[1..] == [] <==> items[1..] == [];
      ItemsSaid(items[1..], parts[1..]);
      hide WellFormed, Print;
      Regrouped(parts[0] + [0x2C], WithCommas(parts[1..]), [0x5D]);
      Regrouped(parts[0], [0x2C], WithCommas(parts[1..]) + [0x5D]);
    }
  }

  /** An object is its members with commas between them, in braces. */
  lemma ObjectSaid(members: seq<Member>, parts: seq<Text>)
    requires MembersWellFormed(members) && AreMembers(parts, members)
    ensures Print(Object(members)) == [0x7B] + WithCommas(parts) + [0x7D]
  {
    MembersSaid(members, parts);
    hide PrintMembers, WithCommas, AreMembers, MembersWellFormed;
    Regrouped([0x7B], WithCommas(parts), [0x7D]);
  }

  lemma {:induction false} MembersSaid(members: seq<Member>, parts: seq<Text>)
    requires MembersWellFormed(members) && AreMembers(parts, members)
    ensures PrintMembers(members) == WithCommas(parts) + [0x7D]
    decreases |members|
  {
    if members != [] {
      assert parts[1..] == [] <==> members[1..] == [];
      MembersSaid(members[1..], parts[1..]);
      hide WellFormed, Print, Escape;
      MemberSaid(members[0].key, Print(members[0].doc), AfterMember(members[1..]));
      Regrouped(parts[0] + [0x2C], WithCommas(parts[1..]), [0x7D]);
      Regrouped(parts[0], [0x2C], WithCommas(parts[1..]) + [0x7D]);
    }
  }

  lemma MemberSaid(key: Text, value: Text, rest: Text)
    ensures Quoted(key) + ([COLON] + (value + rest)) == [0x22] + Escape(key) + [0x22, 0x3A] + value + rest
  {
    hide Escape;
    var e := Escape(key);
    assert [0x22, 0x3A] == [0x22] + [0x3A];
    Regrouped([0x22], e, [0x22]);
    Regrouped([0x22] + e, [0x22], [0x3A]);
    Regrouped([0x22] + e + [0x22], [0x3A], value + rest);
    Regrouped([0x22] + e + [0x22, 0x3A], value, rest);
  }

  /** The texts of scalars. */
  lemma ScalarSaid(t: Text)
    ensures Print(Scalar(Null)) == Chars("null") && Print(Scalar(Bool(true))) == Chars("true")
    ensures Print(Scalar(Bool(false))) == Chars("false")
    ensures Print(Scalar(Str(t))) == [0x22] + Escape(t) + [0x22]
  {
    hide Escape;
    Regrouped([0x22], Escape(t), [0x22]);
  }
}
