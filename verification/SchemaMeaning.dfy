/** Compiled schemas accept the documents that the keywords accept. */
module SchemaMeaning {
  import opened Units
  import opened JsonValues
  import opened Schemas
  import opened SchemaCompiler

  /** A compiled graph: what `Compile` leaves in its fields, read under one environment. */
  datatype World = World(
    env: Env,
    g: SchemaGraph,
    rank: map<Ref, nat>,
    bodies: Bodies,
    kids: map<Ref, Children>,
    top: nat)

  ghost predicate Known(w: World, r: Ref) {
    && r in w.bodies && r in w.g && r in w.rank && r in w.kids && w.rank[r] < w.top
    && Implements(w.bodies, w.bodies.Keys, w.g[r], w.kids[r], w.bodies[r])
  }

  /** Every compiled node implements its schema, and all are below `top`. */
  ghost predicate Sound(w: World) {
    Guarded(w.g, w.rank) && forall r :: r in w.bodies ==> Known(w, r)
  }

  /** Read by keyword, every node has to be regular for the document. */
  ghost predicate Regular(w: World, d: Json) {
    w.env.reading == ByKeyword ==> forall r :: r in w.bodies ==> r in w.g && IsRegular(w.env, w.g[r], d)
  }

  ghost predicate Holds(w: World, bound: nat, i: Instruction, d: Json) {
    Passes(w.env, w.bodies, w.rank, w.top, bound, i, d)
  }

  ghost predicate HoldAll(w: World, bound: nat, cs: seq<Instruction>, d: Json) {
    AllPass(w.env, w.bodies, w.rank, w.top, bound, cs, d)
  }

  ghost predicate Satisfies(w: World, r: Ref, d: Json)
    requires Sound(w) && r in w.g
  {
    Accepts(w.env, w.g, w.rank, r, d)
  }

  /** Instruction by instruction, a document passes exactly when the subschema accepts it. */
  ghost predicate Agree(w: World, bound: nat, cs: seq<Instruction>, rs: seq<Ref>, d: Json)
    requires Sound(w)
  {
    && |cs| == |rs|
    && forall k :: 0 <= k < |rs| ==> rs[k] in w.g && (Holds(w, bound, cs[k], d) <==> Satisfies(w, rs[k], d))
  }

  ghost predicate InPlaceAgree(w: World, bound: nat, n: SchemaNode, ch: Children, d: Json)
    requires Sound(w)
  {
    && Agree(w, bound, ch.allOf, Refs(n.allOf), d)
    && Agree(w, bound, ch.anyOf, Refs(n.anyOf), d)
    && Agree(w, bound, ch.oneOf, Refs(n.oneOf), d)
    && Agree(w, bound, ch.negated, NotRefs(n.negated), d)
    && Agree(w, bound, ch.dependencies, DependencyRefs(Dependencies(n)), d)
  }

  ghost predicate PartAgrees(w: World, n: SchemaNode, ch: Children, e: Json)
    requires Sound(w)
  {
    && Agree(w, w.top, ch.properties, EntryRefs(n.properties), e)
    && Agree(w, w.top, ch.patternProperties, EntryRefs(n.patternProperties), e)
    && Agree(w, w.top, ch.additionalProperties, AdditionalRefs(n.additionalProperties), e)
    && Agree(w, w.top, ch.items, ItemRefs(n.items), e)
    && Agree(w, w.top, ch.additionalItems, AdditionalRefs(n.additionalItems), e)
  }

  ghost predicate PartsAgree(w: World, n: SchemaNode, ch: Children, d: Json)
    requires Sound(w)
  {
    && (d.Arr? ==> forall i :: 0 <= i < |d.items| ==> PartAgrees(w, n, ch, d.items[i]))
    && (d.Obj? ==> forall k :: k in d.fields ==> PartAgrees(w, n, ch, d.fields[k]))
  }

  // ---------------------------------------------------------------- lists of checks

  lemma HoldAllBoth(w: World, bound: nat, a: seq<Instruction>, b: seq<Instruction>, d: Json)
    ensures HoldAll(w, bound, a + b, d) <==> HoldAll(w, bound, a, d) && HoldAll(w, bound, b, d)
  {
    if HoldAll(w, bound, a + b, d) {
      forall k | 0 <= k < |a|
        ensures Holds(w, bound, a[k], d)
      {
        assert (a + b)[k] == a[k];
      }
      forall k | 0 <= k < |b|
        ensures Holds(w, bound, b[k], d)
      {
        assert (a + b)[|a| + k] == b[k];
      }
    }
  }

  lemma Single(w: World, bound: nat, i: Instruction, d: Json)
    ensures HoldAll(w, bound, [i], d) <==> Holds(w, bound, i, d)
  {
    assert [i][0] == i;
  }

  ghost function Count(w: World, bound: nat, cs: seq<Instruction>, d: Json): nat {
    Matches(w.env, w.bodies, w.rank, w.top, bound, cs, d)
  }

  lemma CountStep(w: World, bound: nat, cs: seq<Instruction>, d: Json)
    ensures cs == [] ==> Count(w, bound, cs, d) == 0
    ensures cs != [] ==> Count(w, bound, cs, d) == (if Holds(w, bound, cs[0], d) then 1 else 0) + Count(w, bound, cs[1..], d)
  {
    hide Passes;
  }

  lemma {:induction false} CountsNone(w: World, bound: nat, cs: seq<Instruction>, d: Json)
    ensures Count(w, bound, cs, d) == 0 <==> forall k :: 0 <= k < |cs| ==> !Holds(w, bound, cs[k], d)
  {
    hide Passes, Matches;
    CountStep(w, bound, cs, d);
    if cs != [] {
      CountsNone(w, bound, cs[1..], d);
      assert forall k :: 0 <= k < |cs[1..]| ==> cs[1..][k] == cs[k + 1];
      if k :| 0 <= k < |cs| && Holds(w, bound, cs[k], d) {
        assert k > 0 ==> cs[1..][k - 1] == cs[k];
      }
    }
  }

  /** Exactly one match, and everything else fails. */
  ghost predicate OnlyMatch(w: World, bound: nat, cs: seq<Instruction>, d: Json, k: int) {
    && 0 <= k < |cs| && Holds(w, bound, cs[k], d)
    && forall j :: 0 <= j < |cs| && j != k ==> !Holds(w, bound, cs[j], d)
  }

  lemma {:induction false} CountsOne(w: World, bound: nat, cs: seq<Instruction>, d: Json)
    ensures Count(w, bound, cs, d) == 1 <==> exists k :: OnlyMatch(w, bound, cs, d, k)
  {
    hide Passes, Matches, Count;
    CountStep(w, bound, cs, d);
    if cs == [] {
    } else if Holds(w, bound, cs[0], d) {
      CountsNone(w, bound, cs[1..], d);
      OnlyFirst(w, bound, cs, d);
    } else {
      CountsOne(w, bound, cs[1..], d);
      OnlyMatchShifts(w, bound, cs, d);
    }
  }

  lemma OnlyFirst(w: World, bound: nat, cs: seq<Instruction>, d: Json)
    requires cs != [] && Holds(w, bound, cs[0], d)
    ensures (exists k :: OnlyMatch(w, bound, cs, d, k)) <==> forall j :: 0 <= j < |cs[1..]| ==> !Holds(w, bound, cs[1..][j], d)
  {
    hide Passes;
    if k :| OnlyMatch(w, bound, cs, d, k) {
      forall j | 0 <= j < |cs[1..]|
        ensures !Holds(w, bound, cs[1..][j], d)
      {
        assert cs[1..][j] == cs[j + 1];
      }
    }
    if forall j :: 0 <= j < |cs[1..]| ==> !Holds(w, bound, cs[1..][j], d) {
      forall j | 0 <= j < |cs| && j != 0
        ensures !Holds(w, bound, cs[j], d)
      {
        assert cs[j] == cs[1..][j - 1];
      }
      assert OnlyMatch(w, bound, cs, d, 0);
    }
  }

  lemma OnlyMatchShifts(w: World, bound: nat, cs: seq<Instruction>, d: Json)
    requires cs != [] && !Holds(w, bound, cs[0], d)
    ensures (exists k :: OnlyMatch(w, bound, cs, d, k)) <==> exists k :: OnlyMatch(w, bound, cs[1..], d, k)
  {
    hide Passes;
    if k :| OnlyMatch(w, bound, cs, d, k) {
      assert cs[k] == cs[1..][k - 1];
      forall j | 0 <= j < |cs[1..]| && j != k - 1
        ensures !Holds(w, bound, cs[1..][j], d)
      {
        assert cs[j + 1] == cs[1..][j];
      }
      assert OnlyMatch(w, bound, cs[1..], d, k - 1);
    }
    if k :| OnlyMatch(w, bound, cs[1..], d, k) {
      assert cs[k + 1] == cs[1..][k];
      forall j | 0 <= j < |cs| && j != k + 1
        ensures !Holds(w, bound, cs[j], d)
      {
        assert j > 0 ==> cs[j] == cs[1..][j - 1];
      }
      assert OnlyMatch(w, bound, cs, d, k + 1);
    }
  }

  // ---------------------------------------------------------------- keyword by keyword

  /** The instruction for types has the compiled reading of them. */
  lemma TypeMeans(w: World, bound: nat, n: SchemaNode, d: Json)
    requires w.env.reading == ByKeyword ==> IsReadAlike(w.env, n, d)
    ensures HoldAll(w, bound, TypeChecks(n), d) <==> TypeAllows(w.env, n.types, d)
  {
    hide HoldAll, TypeAllows;
    TypeCompiled(w, bound, n, d);
    if w.env.reading == ByKeyword {
      SameTypes(w.env, n, d);
    } else {
      assert w.env.(reading := AsCompiled) == w.env;
    }
  }

  lemma TypeCompiled(w: World, bound: nat, n: SchemaNode, d: Json)
    ensures HoldAll(w, bound, TypeChecks(n), d) <==> TypeAllows(w.env.(reading := AsCompiled), n.types, d)
  {
    hide HoldAll, HasType;
    Empty(w, bound, d);
    var env := w.env.(reading := AsCompiled);
    forall name
      ensures IsOfType(env, d, name) <==> HasType(w.env, d, name)
    {
      TypeByEnv(w.env, env, d, name);
    }
    match n.types
    case None =>
    case Some(One(name)) =>
      if name != "any" {
        Single(w, bound, CheckType([name]), d);
        assert [name][0] == name;
      }
    case Some(Several(names)) =>
      Single(w, bound, CheckType(names), d);
  }

  lemma TypeByEnv(env: Env, env': Env, d: Json, name: string)
    requires env' == env.(reading := AsCompiled)
    ensures HasType(env', d, name) <==> HasType(env, d, name)
  {
  }

  lemma SameTypes(env: Env, n: SchemaNode, d: Json)
    requires env.reading == ByKeyword && (d.Dec? && AsksIntegers(n) ==> !IsWhole(env.decimal(d.literal)))
    ensures TypeAllows(env, n.types, d) <==> TypeAllows(env.(reading := AsCompiled), n.types, d)
  {
    var names := TypeNames(n.types);
    var env' := env.(reading := AsCompiled);
    IntegerIsWhole(env, d);
    forall name | name in names && name != "integer"
      ensures IsOfType(env, d, name) <==> IsOfType(env', d, name)
    {
    }
    if "integer" in names && IsOfType(env', d, "integer") && !d.Int? {
      assert "number" in names && IsOfType(env, d, "number");
    }
    if "integer" in names && d.Int? {
      assert IsOfType(env, d, "integer") && IsOfType(env', d, "integer");
    }
    ByName(env, n.types, d);
    ByName(env', n.types, d);
  }

  lemma IntegerIsWhole(env: Env, d: Json)
    ensures d.Int? ==> IsWhole(NumberValue(env, d))
  {
  }

  lemma ByName(env: Env, t: Option<TypeKeyword>, d: Json)
    ensures TypeAllows(env, t, d) <==>
            t == None || t == Some(One("any")) || exists name :: name in TypeNames(t) && IsOfType(env, d, name)
  {
    hide IsOfType;
    match t
    case None =>
    case Some(One(name)) =>
      assert name in TypeNames(t);
    case Some(Several(names)) =>
      if i :| 0 <= i < |names| && IsOfType(env, d, names[i]) {
        assert names[i] in TypeNames(t);
      }
  }

  /** The two readings of a type keyword agree on every document exactly when the node is regular in its types. */
  lemma TypesAgreeIff(env: Env, n: SchemaNode)
    requires env.reading == ByKeyword
    ensures TypeRegular(env, n) <==>
            forall d: Json :: TypeAllows(env, n.types, d) <==> TypeAllows(env.(reading := AsCompiled), n.types, d)
  {
    if TypeRegular(env, n) {
      forall d: Json
        ensures TypeAllows(env, n.types, d) <==> TypeAllows(env.(reading := AsCompiled), n.types, d)
      {
        SameTypes(env, n, d);
      }
    } else {
      var literal :| IsWhole(env.decimal(literal));
      WholeDiffers(env, n, literal);
    }
  }

  /** A number like 1.0, which is written with a fraction, is an integer to the compiled type `integer` only. */
  lemma WholeDiffers(env: Env, n: SchemaNode, literal: Text)
    requires env.reading == ByKeyword && IsWhole(env.decimal(literal))
    requires "integer" in TypeNames(n.types) && "number" !in TypeNames(n.types)
    ensures !TypeAllows(env, n.types, Dec(literal)) && TypeAllows(env.(reading := AsCompiled), n.types, Dec(literal))
  {
    var d, env' := Dec(literal), env.(reading := AsCompiled);
    ByName(env, n.types, d);
    ByName(env', n.types, d);
    assert IsOfType(env', d, "integer");
    forall name | name in TypeNames(n.types)
      ensures !IsOfType(env, d, name)
    {
    }
    AnyIsNoInteger(n.types);
  }

  lemma AnyIsNoInteger(t: Option<TypeKeyword>)
    ensures t == Some(One("any")) ==> "integer" !in TypeNames(t)
  {
    assert |"any"| != |"integer"|;
  }

  lemma EnumMeans(w: World, bound: nat, n: SchemaNode, d: Json)
    ensures HoldAll(w, bound, if n.enumeration.Some? then [CheckEnum(n.enumeration.value)] else [], d)
            <==> EnumAllows(w.env, n.enumeration, d)
  {
    if n.enumeration.Some? {
      Single(w, bound, CheckEnum(n.enumeration.value), d);
    }
  }

  lemma RequiredMeans(w: World, bound: nat, n: SchemaNode, d: Json)
    ensures HoldAll(w, bound, if n.required.Some? then RequiredChecks(n.required.value) else [], d) <==> RequiredAllows(n, d)
  {
    if n.required.Some? && d.Obj? {
      var names := n.required.value;
      var cs := RequiredChecks(names);
      forall k | 0 <= k < |names|
        ensures Holds(w, bound, cs[k], d) <==> names[k] in d.fields
      {
        assert cs[k] == CheckPresent(names[k]);
      }
    }
  }

  lemma NumberMeans(w: World, bound: nat, n: SchemaNode, d: Json)
    ensures HoldAll(w, bound, NumberChecks(n), d) <==> NumberAllows(w.env, n, d)
  {
    if NumberChecks(n) != [] {
      Single(w, bound, NumberChecks(n)[0], d);
    }
  }

  lemma StringMeans(w: World, bound: nat, n: SchemaNode, d: Json)
    requires Fits(d) && (w.env.reading == ByKeyword ==> IsReadAlike(w.env, n, d))
    ensures HoldAll(w, bound, StringChecks(n), d) <==> StringAllows(w.env, n, d)
  {
    StringCompiled(w, bound, n, d);
    hide HoldAll;
    hide CodePoints, AtLeast, AtMost;
  }

  /** The instruction for strings has the compiled reading of the pattern. */
  lemma StringCompiled(w: World, bound: nat, n: SchemaNode, d: Json)
    requires Fits(d)
    ensures HoldAll(w, bound, StringChecks(n), d) <==> StringAllows(w.env.(reading := AsCompiled), n, d)
  {
    if StringChecks(n) != [] {
      Single(w, bound, StringChecks(n)[0], d);
    }
  }

  /** The two readings of the string keywords agree on every string exactly when the node is regular in its pattern. */
  lemma PatternsAgreeIff(env: Env, n: SchemaNode)
    requires env.reading == ByKeyword
    ensures PatternRegular(env, n) <==>
            forall s: Text :: |s| <= INT_MAX ==>
              (StringAllows(env, n, Str(s)) <==> StringAllows(env.(reading := AsCompiled), n, Str(s)))
  {
    hide CodePoints, AtLeast, AtMost;
    var env' := env.(reading := AsCompiled);
    if !PatternRegular(env, n) {
      var s: Text :| |s| <= INT_MAX && AtLeast(n.minLength, CodePoints(s)) && AtMost(n.maxLength, CodePoints(s))
        && !(env.finds(n.pattern.value, s) <==> env.matches(n.pattern.value, s));
      assert !(StringAllows(env, n, Str(s)) <==> StringAllows(env', n, Str(s)));
    }
  }

  lemma RunsAll(w: World, bound: nat, cs: seq<Instruction>, d: Json)
    ensures Holds(w, bound, CheckAll(cs), d) <==> forall k :: 0 <= k < |cs| ==> Holds(w, bound, cs[k], d)
  {
  }

  lemma RunsAny(w: World, bound: nat, cs: seq<Instruction>, d: Json)
    ensures Holds(w, bound, CheckAny(cs), d) <==> exists k :: 0 <= k < |cs| && Holds(w, bound, cs[k], d)
  {
  }

  lemma RunsOne(w: World, bound: nat, cs: seq<Instruction>, d: Json)
    ensures Holds(w, bound, CheckOne(cs), d) <==> Count(w, bound, cs, d) == 1
  {
  }

  lemma RunsNot(w: World, bound: nat, i: Instruction, d: Json)
    ensures Holds(w, bound, CheckNot(i), d) <==> !Holds(w, bound, i, d)
  {
  }

  lemma AllOfMeans(w: World, bound: nat, b: nat, cs: seq<Instruction>, rs: seq<Ref>, d: Json)
    requires Sound(w) && Agree(w, bound, cs, rs, d) && AllIn(w.g, rs) && AllLower(w.rank, rs, b)
    ensures Holds(w, bound, CheckAll(cs), d) <==> AllAccept(w.env, w.g, w.rank, b, rs, d)
  {
    RunsAll(w, bound, cs, d);
    hide Passes, Accepts, Known, Guarded;
    assert AllAccept(w.env, w.g, w.rank, b, rs, d) <==> forall k :: 0 <= k < |rs| ==> Satisfies(w, rs[k], d);
  }

  lemma AnyOfMeans(w: World, bound: nat, b: nat, cs: seq<Instruction>, rs: seq<Ref>, d: Json)
    requires Sound(w) && Agree(w, bound, cs, rs, d) && AllIn(w.g, rs) && AllLower(w.rank, rs, b)
    ensures Holds(w, bound, CheckAny(cs), d) <==> SomeAccepts(w.env, w.g, w.rank, b, rs, d)
  {
    RunsAny(w, bound, cs, d);
    hide Passes, Accepts, Known, Guarded;
    assert SomeAccepts(w.env, w.g, w.rank, b, rs, d) <==> exists k :: 0 <= k < |rs| && Satisfies(w, rs[k], d);
  }

  lemma OneOfMeans(w: World, bound: nat, b: nat, cs: seq<Instruction>, rs: seq<Ref>, d: Json)
    requires Sound(w) && Agree(w, bound, cs, rs, d) && AllIn(w.g, rs) && AllLower(w.rank, rs, b)
    ensures Holds(w, bound, CheckOne(cs), d) <==> OneAccepts(w.env, w.g, w.rank, b, rs, d)
  {
    RunsOne(w, bound, cs, d);
    hide Passes, Accepts, Count, Known, Guarded;
    CountsOne(w, bound, cs, d);
    assert forall k :: OnlyMatch(w, bound, cs, d, k) <==> OnlyAccepted(w, rs, d, k);
    if OneAccepts(w.env, w.g, w.rank, b, rs, d) {
      var k :| 0 <= k < |rs| && Accepts(w.env, w.g, w.rank, rs[k], d)
        && forall j :: 0 <= j < |rs| && j != k ==> !Accepts(w.env, w.g, w.rank, rs[j], d);
      assert OnlyAccepted(w, rs, d, k);
    }
    if k :| OnlyAccepted(w, rs, d, k) {
      assert Accepts(w.env, w.g, w.rank, rs[k], d);
      assert forall j :: 0 <= j < |rs| && j != k ==> !Satisfies(w, rs[j], d);
    }
  }

  ghost predicate OnlyAccepted(w: World, rs: seq<Ref>, d: Json, k: int)
    requires Sound(w) && AllIn(w.g, rs)
  {
    0 <= k < |rs| && Satisfies(w, rs[k], d) && forall j :: 0 <= j < |rs| && j != k ==> !Satisfies(w, rs[j], d)
  }

  lemma AcceptsOnly(w: World, b: nat, rs: seq<Ref>, d: Json)
    requires Sound(w) && AllIn(w.g, rs) && AllLower(w.rank, rs, b) && |rs| == 1
    ensures AllAccept(w.env, w.g, w.rank, b, rs, d) <==> Satisfies(w, rs[0], d)
  {
    hide Accepts, Known, Guarded;
    if AllAccept(w.env, w.g, w.rank, b, rs, d) {
      assert Satisfies(w, rs[0], d);
    }
    if Satisfies(w, rs[0], d) {
      forall k | 0 <= k < |rs|
        ensures Accepts(w.env, w.g, w.rank, rs[k], d)
      {
        assert rs[k] == rs[0];
      }
    }
  }

  lemma NotMeans(w: World, bound: nat, b: nat, cs: seq<Instruction>, rs: seq<Ref>, d: Json)
    requires Sound(w) && Agree(w, bound, cs, rs, d) && AllIn(w.g, rs) && AllLower(w.rank, rs, b) && |rs| == 1
    ensures Holds(w, bound, CheckNot(cs[0]), d) <==> !AllAccept(w.env, w.g, w.rank, b, rs, d)
  {
    RunsNot(w, bound, cs[0], d);
    hide Passes, Accepts, Known, Guarded, AllAccept;
    AcceptsOnly(w, b, rs, d);
  }

  lemma IfPresent(w: World, bound: nat, present: bool, i: Instruction, d: Json)
    ensures HoldAll(w, bound, if present then [i] else [], d) <==> (present ==> Holds(w, bound, i, d))
  {
    hide Passes;
    Single(w, bound, i, d);
  }

  lemma CombinedJoin(w: World, bound: nat, n: SchemaNode, ch: Children, d: Json)
    requires Fitting(n, ch)
    ensures HoldAll(w, bound, CombinedChecks(n, ch), d) <==>
            && (n.allOf.Some? ==> Holds(w, bound, CheckAll(ch.allOf), d))
            && (n.anyOf.Some? ==> Holds(w, bound, CheckAny(ch.anyOf), d))
            && (n.oneOf.Some? ==> Holds(w, bound, CheckOne(ch.oneOf), d))
            && (n.negated.Some? ==> Holds(w, bound, CheckNot(ch.negated[0]), d))
  {
    hide Passes, AllPass, HoldAll;
    var all := if n.allOf.Some? then [CheckAll(ch.allOf)] else [];
    var some := if n.anyOf.Some? then [CheckAny(ch.anyOf)] else [];
    var one := if n.oneOf.Some? then [CheckOne(ch.oneOf)] else [];
    var none := if n.negated.Some? then [CheckNot(ch.negated[0])] else [];
    HoldAllBoth(w, bound, all + some + one, none, d);
    HoldAllBoth(w, bound, all + some, one, d);
    HoldAllBoth(w, bound, all, some, d);
    IfPresent(w, bound, n.allOf.Some?, CheckAll(ch.allOf), d);
    IfPresent(w, bound, n.anyOf.Some?, CheckAny(ch.anyOf), d);
    IfPresent(w, bound, n.oneOf.Some?, CheckOne(ch.oneOf), d);
    if n.negated.Some? {
      IfPresent(w, bound, true, CheckNot(ch.negated[0]), d);
    } else {
      Empty(w, bound, d);
    }
  }

  lemma Empty(w: World, bound: nat, d: Json)
    ensures HoldAll(w, bound, [], d)
  {
  }

  lemma CombinedMeans(w: World, bound: nat, r: Ref, ch: Children, d: Json)
    requires Sound(w) && r in w.g && Fitting(w.g[r], ch) && InPlaceAgree(w, bound, w.g[r], ch, d)
    ensures HoldAll(w, bound, CombinedChecks(w.g[r], ch), d) <==> CombinedAllows(w.env, w.g, w.rank, r, d)
  {
    hide Passes, Accepts, Matches, AllPass, HoldAll, Holds, CombinedChecks, Agree, Known, Closed, InPlace, AllLower, AllIn,
      AllAccept, SomeAccepts, OneAccepts;
    var n := w.g[r];
    InPlaceKnown(w.g, w.rank, r);
    CombinedJoin(w, bound, n, ch, d);
    AllOfMeans(w, bound, w.rank[r], ch.allOf, Refs(n.allOf), d);
    AnyOfMeans(w, bound, w.rank[r], ch.anyOf, Refs(n.anyOf), d);
    OneOfMeans(w, bound, w.rank[r], ch.oneOf, Refs(n.oneOf), d);
    if n.negated.Some? {
      NotMeans(w, bound, w.rank[r], ch.negated, NotRefs(n.negated), d);
    }
  }

  // ---------------------------------------------------------------- objects

  ghost predicate PropsHold(w: World, props: seq<Named>, d: Json)
    requires d.Obj?
  {
    forall k :: 0 <= k < |props| && props[k].name in d.fields ==> Holds(w, w.top, props[k].check, d.fields[props[k].name])
  }

  ghost predicate PatternsHold(w: World, props: seq<Named>, d: Json)
    requires d.Obj?
  {
    forall k, name :: 0 <= k < |props| && name in d.fields && w.env.finds(props[k].name, name) ==>
      Holds(w, w.top, props[k].check, d.fields[name])
  }

  ghost predicate RestHolds(w: World, check: Instruction, d: Json)
    requires d.Obj? && check.CheckObject?
  {
    check.others != Anything ==>
      forall name :: name in d.fields && !IsChecked(w.env, check.props, check.patternProps, name) ==>
        check.others.Each? && Holds(w, w.top, check.others.check, d.fields[name])
  }

  lemma RunsObject(w: World, bound: nat, check: Instruction, d: Json)
    requires d.Obj? && check.CheckObject?
    ensures Holds(w, bound, check, d) <==>
            && PropsHold(w, check.props, d) && PatternsHold(w, check.patternProps, d) && RestHolds(w, check, d)
            && check.min <= |d.fields| <= check.max
  {
    hide IsChecked;
  }

  lemma PropsMean(w: World, r: Ref, ch: Children, d: Json)
    requires Sound(w) && r in w.g && d.Obj? && Fitting(w.g[r], ch) && PartsAgree(w, w.g[r], ch, d)
    ensures PropsHold(w, Names(w.g[r].properties, ch.properties), d) <==> PropertiesAllow(w.env, w.g, w.rank, r, d)
  {
    hide Passes, Accepts, Known;
    BelowKnown(w.g, w.rank, r);
    hide Guarded;
    var entries, rs := w.g[r].properties, EntryRefs(w.g[r].properties);
    var props := Names(entries, ch.properties);
    forall k | 0 <= k < |props| && props[k].name in d.fields
      ensures Holds(w, w.top, props[k].check, d.fields[props[k].name])
              <==> Accepts(w.env, w.g, w.rank, rs[k], d.fields[entries.value[k].name])
    {
      assert PartAgrees(w, w.g[r], ch, d.fields[props[k].name]);
    }
  }

  lemma PatternsMean(w: World, r: Ref, ch: Children, d: Json)
    requires Sound(w) && r in w.g && d.Obj? && Fitting(w.g[r], ch) && PartsAgree(w, w.g[r], ch, d)
    ensures PatternsHold(w, Names(w.g[r].patternProperties, ch.patternProperties), d)
            <==> PatternsAllow(w.env, w.g, w.rank, r, d)
  {
    hide Passes, Accepts, Known;
    BelowKnown(w.g, w.rank, r);
    hide Guarded;
    var entries, rs := w.g[r].patternProperties, EntryRefs(w.g[r].patternProperties);
    var props := Names(entries, ch.patternProperties);
    forall k, name | 0 <= k < |props| && name in d.fields
      ensures Holds(w, w.top, props[k].check, d.fields[name]) <==> Accepts(w.env, w.g, w.rank, rs[k], d.fields[name])
    {
      assert PartAgrees(w, w.g[r], ch, d.fields[name]);
    }
  }

  lemma CheckedOrExtra(w: World, n: SchemaNode, ch: Children, name: Text)
    requires Fitting(n, ch)
    ensures IsChecked(w.env, Names(n.properties, ch.properties), Names(n.patternProperties, ch.patternProperties), name)
            <==> !IsExtra(w.env, n, name)
  {
    var props, patterns := Names(n.properties, ch.properties), Names(n.patternProperties, ch.patternProperties);
    if n.properties.Some? {
      assert forall k :: 0 <= k < |props| ==> props[k].name == n.properties.value[k].name;
    }
    if n.patternProperties.Some? {
      assert forall k :: 0 <= k < |patterns| ==> patterns[k].name == n.patternProperties.value[k].name;
    }
  }

  lemma RestAgrees(w: World, r: Ref, ch: Children, d: Json, name: Text)
    requires Sound(w) && r in w.g && d.Obj? && Fitting(w.g[r], ch) && PartsAgree(w, w.g[r], ch, d) && name in d.fields
    ensures var check, others := ObjectCheck(w.g[r], ch), AdditionalRefs(w.g[r].additionalProperties);
            && (IsChecked(w.env, check.props, check.patternProps, name) <==> !IsExtra(w.env, w.g[r], name))
            && (check.others.Each? <==> others != [])
            && (others != [] ==> others[0] in w.g)
            && (others != [] ==>
                  (Holds(w, w.top, check.others.check, d.fields[name]) <==> Satisfies(w, others[0], d.fields[name])))
  {
    hide Passes, Accepts, Known, IsChecked, IsExtra, Guarded;
    CheckedOrExtra(w, w.g[r], ch, name);
    assert PartAgrees(w, w.g[r], ch, d.fields[name]);
  }

  /** The extra fields one by one. */
  ghost predicate ExtraAgrees(w: World, n: SchemaNode, check: Instruction, d: Json, name: Text)
    requires Sound(w) && d.Obj? && check.CheckObject? && name in d.fields
  {
    var others := AdditionalRefs(n.additionalProperties);
    && (IsChecked(w.env, check.props, check.patternProps, name) <==> !IsExtra(w.env, n, name))
    && (check.others.Each? <==> others != [])
    && (check.others.Nothing? <==> n.additionalProperties == Some(Flag(false)))
    && (others != [] ==> others[0] in w.g)
    && (others != [] ==> (Holds(w, w.top, check.others.check, d.fields[name]) <==> Satisfies(w, others[0], d.fields[name])))
  }

  lemma RestByName(w: World, r: Ref, check: Instruction, d: Json)
    requires Sound(w) && r in w.g && d.Obj? && check.CheckObject?
    requires forall name :: name in d.fields ==> ExtraAgrees(w, w.g[r], check, d, name)
    ensures RestHolds(w, check, d) <==> ExtrasAllow(w.env, w.g, w.rank, r, d)
  {
    hide Passes, Accepts, Known, IsChecked, IsExtra, Holds, Guarded, AdditionalRefs;
  }

  lemma RestMeans(w: World, r: Ref, ch: Children, d: Json)
    requires Sound(w) && r in w.g && d.Obj? && Fitting(w.g[r], ch) && PartsAgree(w, w.g[r], ch, d)
    ensures RestHolds(w, ObjectCheck(w.g[r], ch), d) <==> ExtrasAllow(w.env, w.g, w.rank, r, d)
  {
    hide Passes, Accepts, Known, IsChecked, IsExtra, Names, Holds, Agree, Guarded, PartsAgree, Sound, RestHolds, ExtrasAllow;
    forall name | name in d.fields
      ensures ExtraAgrees(w, w.g[r], ObjectCheck(w.g[r], ch), d, name)
    {
      RestAgrees(w, r, ch, d, name);
    }
    RestByName(w, r, ObjectCheck(w.g[r], ch), d);
  }

  lemma ObjectCheckMeans(w: World, bound: nat, r: Ref, ch: Children, d: Json)
    requires Sound(w) && r in w.g && d.Obj? && Fits(d) && Fitting(w.g[r], ch) && PartsAgree(w, w.g[r], ch, d)
    ensures Holds(w, bound, ObjectCheck(w.g[r], ch), d) <==> ObjectAllows(w.env, w.g, w.rank, r, d)
  {
    hide Passes, Accepts, PropertiesAllow, PatternsAllow, ExtrasAllow, PropsHold, PatternsHold, RestHolds, PartsAgree, Guarded, Known;
    RunsObject(w, bound, ObjectCheck(w.g[r], ch), d);
    PropsMean(w, r, ch, d);
    PatternsMean(w, r, ch, d);
    RestMeans(w, r, ch, d);
  }

  /** The check that `compile` leaves out lets every object pass. */
  lemma TrivialObjectCheck(w: World, bound: nat, n: SchemaNode, ch: Children, d: Json)
    requires Fits(d) && Fitting(n, ch) && d.Obj? && ObjectChecks(n, ch) == []
    ensures Holds(w, bound, ObjectCheck(n, ch), d)
  {
    RunsObject(w, bound, ObjectCheck(n, ch), d);
  }

  lemma ObjectMeans(w: World, bound: nat, r: Ref, ch: Children, d: Json)
    requires Sound(w) && r in w.g && Fits(d) && Fitting(w.g[r], ch) && PartsAgree(w, w.g[r], ch, d)
    ensures HoldAll(w, bound, ObjectChecks(w.g[r], ch), d) <==> (d.Obj? ==> ObjectAllows(w.env, w.g, w.rank, r, d))
  {
    hide Accepts, ObjectAllows, PartsAgree, Guarded, Known, Names;
    if !d.Obj? {
    } else {
      hide Passes;
      ObjectCheckMeans(w, bound, r, ch, d);
      if ObjectChecks(w.g[r], ch) == [] {
        TrivialObjectCheck(w, bound, w.g[r], ch, d);
      } else {
        Single(w, bound, ObjectCheck(w.g[r], ch), d);
      }
    }
  }

  // ---------------------------------------------------------------- arrays

  /** What the check for arrays asks of the element `e` at `k`. */
  ghost predicate ItemHolds(w: World, check: Instruction, e: Json, k: nat)
    requires check.CheckArray?
  {
    if check.each != [] then Holds(w, w.top, check.each[0], e)
    else if check.tuple.Some? && k < |check.tuple.value| then Holds(w, w.top, check.tuple.value[k], e)
    else !check.others.Nothing? && (check.others.Each? ==> Holds(w, w.top, check.others.check, e))
  }

  ghost predicate ItemsHold(w: World, check: Instruction, d: Json)
    requires check.CheckArray? && d.Arr?
  {
    forall k :: 0 <= k < |d.items| ==> ItemHolds(w, check, d.items[k], k)
  }

  predicate SkipsSizes(check: Instruction)
    requires check.CheckArray?
  {
    check.each == [] && check.tuple.None? && check.others.Nothing?
  }

  lemma RunsArray(w: World, bound: nat, check: Instruction, d: Json)
    requires d.Arr? && check.CheckArray?
    ensures Holds(w, bound, check, d) <==>
            || SkipsSizes(check)
            || (&& ItemsHold(w, check, d) && (check.unique ==> NoDuplicates(w.env, d.items))
                && check.min <= |d.items| <= check.max)
  {
    hide NoDuplicates;
    forall k | 0 <= k < |d.items|
      ensures ElementPasses(w.env, w.bodies, w.rank, w.top, check.others, d.items[k]) <==>
              !check.others.Nothing? && (check.others.Each? ==> Holds(w, w.top, check.others.check, d.items[k]))
    {
    }
  }

  lemma EachMeans(w: World, r: Ref, ch: Children, d: Json)
    requires Sound(w) && r in w.g && d.Arr? && Fitting(w.g[r], ch) && PartsAgree(w, w.g[r], ch, d)
    requires w.g[r].items.Some? && w.g[r].items.value.Each?
    ensures ItemsHold(w, ArrayCheck(w.g[r], ch), d) <==> EachAllows(w.env, w.g, w.rank, r, d)
  {
    hide Passes, Accepts, Known;
    BelowKnown(w.g, w.rank, r);
    hide Guarded;
    var check, c := ArrayCheck(w.g[r], ch), ItemRefs(w.g[r].items)[0];
    forall k | 0 <= k < |d.items|
      ensures ItemHolds(w, check, d.items[k], k) <==> Accepts(w.env, w.g, w.rank, c, d.items[k])
    {
      assert PartAgrees(w, w.g[r], ch, d.items[k]);
    }
  }

  /** Within the tuple its schema judges, beyond it `additionalItems`. */
  ghost predicate TupleItem(w: World, schemas: seq<Ref>, others: seq<Ref>, closed: bool, e: Json, k: nat)
    requires Sound(w) && AllIn(w.g, schemas) && AllIn(w.g, others)
  {
    if k < |schemas| then Satisfies(w, schemas[k], e)
    else !closed && (others != [] ==> Satisfies(w, others[0], e))
  }

  lemma TupleItemMeans(w: World, r: Ref, ch: Children, d: Json, k: nat)
    requires Sound(w) && r in w.g && d.Arr? && Fitting(w.g[r], ch) && PartsAgree(w, w.g[r], ch, d)
    requires k < |d.items| && !(w.g[r].items.Some? && w.g[r].items.value.Each?)
    requires AllIn(w.g, ItemRefs(w.g[r].items)) && AllIn(w.g, AdditionalRefs(w.g[r].additionalItems))
    ensures ItemHolds(w, ArrayCheck(w.g[r], ch), d.items[k], k)
            <==> TupleItem(w, ItemRefs(w.g[r].items), AdditionalRefs(w.g[r].additionalItems),
                           w.g[r].additionalItems == Some(Flag(false)), d.items[k], k)
  {
    hide Passes, Accepts, Known, Guarded;
    assert PartAgrees(w, w.g[r], ch, d.items[k]);
  }

  ghost predicate TupleItems(w: World, r: Ref, d: Json)
    requires Sound(w) && r in w.g && d.Arr?
    requires AllIn(w.g, ItemRefs(w.g[r].items)) && AllIn(w.g, AdditionalRefs(w.g[r].additionalItems))
  {
    var schemas, others := ItemRefs(w.g[r].items), AdditionalRefs(w.g[r].additionalItems);
    var closed := w.g[r].additionalItems == Some(Flag(false));
    forall k :: 0 <= k < |d.items| ==> TupleItem(w, schemas, others, closed, d.items[k], k)
  }

  lemma TupleByItem(w: World, r: Ref, d: Json)
    requires Sound(w) && r in w.g && d.Arr?
    requires AllIn(w.g, ItemRefs(w.g[r].items)) && AllIn(w.g, AdditionalRefs(w.g[r].additionalItems))
    ensures TupleAllows(w.env, w.g, w.rank, r, d) <==> TupleItems(w, r, d)
  {
    hide Passes, Accepts, Known, Guarded;
    var schemas, others := ItemRefs(w.g[r].items), AdditionalRefs(w.g[r].additionalItems);
    var closed := w.g[r].additionalItems == Some(Flag(false));
    if TupleItems(w, r, d) {
      if |d.items| > |schemas| {
        assert TupleItem(w, schemas, others, closed, d.items[|schemas|], |schemas|);
      }
      forall i | 0 <= i < |d.items| && i < |schemas|
        ensures Accepts(w.env, w.g, w.rank, schemas[i], d.items[i])
      {
        assert TupleItem(w, schemas, others, closed, d.items[i], i);
      }
      forall i | |schemas| <= i < |d.items| && others != []
        ensures Accepts(w.env, w.g, w.rank, others[0], d.items[i])
      {
        assert TupleItem(w, schemas, others, closed, d.items[i], i);
      }
    }
  }

  lemma ItemsAsTuple(w: World, r: Ref, ch: Children, d: Json)
    requires Sound(w) && r in w.g && d.Arr? && Fitting(w.g[r], ch) && PartsAgree(w, w.g[r], ch, d)
    requires !(w.g[r].items.Some? && w.g[r].items.value.Each?)
    requires AllIn(w.g, ItemRefs(w.g[r].items)) && AllIn(w.g, AdditionalRefs(w.g[r].additionalItems))
    ensures ItemsHold(w, ArrayCheck(w.g[r], ch), d) <==> TupleItems(w, r, d)
  {
    hide Sound, Fitting, ItemHolds, TupleItem, ArrayCheck, PartsAgree, AllIn, ItemRefs, AdditionalRefs;
    var schemas, others := ItemRefs(w.g[r].items), AdditionalRefs(w.g[r].additionalItems);
    var closed := w.g[r].additionalItems == Some(Flag(false));
    var check := ArrayCheck(w.g[r], ch);
    forall k | 0 <= k < |d.items|
      ensures ItemHolds(w, check, d.items[k], k) <==> TupleItem(w, schemas, others, closed, d.items[k], k)
    {
      TupleItemMeans(w, r, ch, d, k);
    }
  }

  lemma TupleMeans(w: World, r: Ref, ch: Children, d: Json)
    requires Sound(w) && r in w.g && d.Arr? && Fitting(w.g[r], ch) && PartsAgree(w, w.g[r], ch, d)
    requires !(w.g[r].items.Some? && w.g[r].items.value.Each?)
    ensures ItemsHold(w, ArrayCheck(w.g[r], ch), d) <==> TupleAllows(w.env, w.g, w.rank, r, d)
  {
    hide Passes, Accepts, Known, ItemsHold, TupleItems, ArrayCheck, TupleAllows, PartsAgree;
    BelowKnown(w.g, w.rank, r);
    hide Guarded;
    TupleByItem(w, r, d);
    ItemsAsTuple(w, r, ch, d);
  }

  /** What `compile` makes of the array keywords, for every node: the two corners of `additionalItems` without `items`. */
  ghost predicate ArrayOutcome(w: World, r: Ref, d: Json)
    requires Sound(w) && r in w.g && d.Arr?
  {
    var n := w.g[r];
    BelowKnown(w.g, w.rank, r);
    || (n.items.None? && n.additionalItems == Some(Flag(false)))
    || (&& ArrayByKeyword(w.env, w.g, w.rank, r, d)
        && (n.items.None? && AdditionalRefs(n.additionalItems) != [] ==>
              forall i :: 0 <= i < |d.items| ==> Satisfies(w, AdditionalRefs(n.additionalItems)[0], d.items[i])))
  }

  lemma ArrayCheckMeans(w: World, bound: nat, r: Ref, ch: Children, d: Json)
    requires Sound(w) && r in w.g && d.Arr? && Fits(d) && Fitting(w.g[r], ch) && PartsAgree(w, w.g[r], ch, d)
    ensures Holds(w, bound, ArrayCheck(w.g[r], ch), d) <==> ArrayOutcome(w, r, d)
  {
    hide Passes, Accepts, Known, Guarded, NoDuplicates, PartsAgree, EachAllows, TupleAllows, ItemsHold, Holds, Satisfies;
    var n := w.g[r];
    var check := ArrayCheck(n, ch);
    RunsArray(w, bound, check, d);
    if n.items.Some? && n.items.value.Each? {
      EachMeans(w, r, ch, d);
    } else if n.items.Some? {
      TupleMeans(w, r, ch, d);
    } else {
      LooseItems(w, r, ch, d);
    }
  }

  /** Without `items`, `additionalItems` judges every element. */
  lemma LooseItems(w: World, r: Ref, ch: Children, d: Json)
    requires Sound(w) && r in w.g && d.Arr? && Fitting(w.g[r], ch) && PartsAgree(w, w.g[r], ch, d) && w.g[r].items.None?
    ensures var others := AdditionalRefs(w.g[r].additionalItems);
            && AllIn(w.g, others)
            && (w.g[r].additionalItems != Some(Flag(false)) ==>
                (ItemsHold(w, ArrayCheck(w.g[r], ch), d)
                <==> (others != [] ==> forall i :: 0 <= i < |d.items| ==> Satisfies(w, others[0], d.items[i]))))
  {
    BelowKnown(w.g, w.rank, r);
    hide Passes, Accepts, Known, Guarded, ItemHolds, PartsAgree, Holds, Satisfies;
    var others, closed, check :=
      AdditionalRefs(w.g[r].additionalItems), w.g[r].additionalItems == Some(Flag(false)), ArrayCheck(w.g[r], ch);
    forall k | 0 <= k < |d.items|
      ensures ItemHolds(w, check, d.items[k], k) <==> TupleItem(w, [], others, closed, d.items[k], k)
    {
      TupleItemMeans(w, r, ch, d, k);
    }
  }

  /** The check that `compile` leaves out lets every array pass. */
  lemma TrivialArrayCheck(w: World, bound: nat, n: SchemaNode, ch: Children, d: Json)
    requires Fits(d) && Fitting(n, ch) && d.Arr? && ArrayChecks(n, ch) == []
    ensures Holds(w, bound, ArrayCheck(n, ch), d)
  {
    RunsArray(w, bound, ArrayCheck(n, ch), d);
  }

  lemma ArrayChecksMean(w: World, bound: nat, r: Ref, ch: Children, d: Json)
    requires Sound(w) && r in w.g && Fits(d) && Fitting(w.g[r], ch) && PartsAgree(w, w.g[r], ch, d)
    ensures HoldAll(w, bound, ArrayChecks(w.g[r], ch), d) <==> (d.Arr? ==> ArrayOutcome(w, r, d))
  {
    hide Accepts, ArrayOutcome, PartsAgree, Guarded, Known;
    if d.Arr? {
      hide Passes;
      ArrayCheckMeans(w, bound, r, ch, d);
      if ArrayChecks(w.g[r], ch) == [] {
        TrivialArrayCheck(w, bound, w.g[r], ch, d);
      } else {
        Single(w, bound, ArrayCheck(w.g[r], ch), d);
      }
    }
  }

  lemma RegularOutcome(w: World, r: Ref, d: Json)
    requires Sound(w) && r in w.g && d.Arr? && Fits(d) && ItemsRegular(w.g[r])
    ensures ArrayOutcome(w, r, d) <==> ArrayByKeyword(w.env, w.g, w.rank, r, d)
  {
    hide Accepts, Known, Guarded;
  }

  /** The outcome is what the reading says: for every node as compiled, for nodes regular in their items by keyword. */
  lemma OutcomeByReading(w: World, r: Ref, d: Json)
    requires Sound(w) && r in w.g && d.Arr? && Fits(d) && (w.env.reading == ByKeyword ==> ItemsRegular(w.g[r]))
    ensures ArrayOutcome(w, r, d) <==> ArrayAllows(w.env, w.g, w.rank, r, d)
  {
    hide Accepts, Known, Guarded, ArrayByKeyword, ItemsRegular;
    if w.env.reading == ByKeyword {
      RegularOutcome(w, r, d);
    }
  }

  function Nulls(n: nat): Json {
    Arr(seq(n, _ => Null))
  }

  /**
   * With `additionalItems` false and no `items`, the compiled node and the keywords agree on every array exactly when
   * the node has no other array keyword of any effect.
   */
  lemma ForbiddenItems(w: World, r: Ref)
    requires Sound(w) && r in w.g && w.g[r].items.None? && w.g[r].additionalItems == Some(Flag(false))
    ensures ItemsRegular(w.g[r]) <==>
            forall d: Json :: d.Arr? && Fits(d) ==> (ArrayOutcome(w, r, d) <==> ArrayByKeyword(w.env, w.g, w.rank, r, d))
  {
    hide Accepts, Known, Guarded;
    var n := w.g[r];
    if ItemsRegular(n) {
      forall d: Json | d.Arr? && Fits(d)
        ensures ArrayOutcome(w, r, d) <==> ArrayByKeyword(w.env, w.g, w.rank, r, d)
      {
        RegularOutcome(w, r, d);
      }
    } else {
      var size := if n.uniqueItems == Some(true) then 2
        else if n.maxItems.Some? && 0 <= n.maxItems.value < INT_MAX then n.maxItems.value + 1 else 0;
      var d := Nulls(size);
      if n.uniqueItems == Some(true) {
        assert Same(w.env, d.items[0], d.items[1]);
      }
      assert Fits(d);
      assert !ArrayByKeyword(w.env, w.g, w.rank, r, d);
      assert ArrayOutcome(w, r, d);
    }
  }

  /**
   * With a schema under `additionalItems` and no `items`, the compiled node asks more than the keywords: every element is
   * judged by that schema. They part on exactly the arrays with an element that it rejects.
   */
  lemma LooseSchema(w: World, r: Ref, d: Json)
    requires Sound(w) && r in w.g && w.g[r].items.None? && w.g[r].additionalItems.Some? && w.g[r].additionalItems.value.Sub?
    requires d.Arr?
    ensures var c := w.g[r].additionalItems.value.schema;
            && c in w.g
            && (ArrayOutcome(w, r, d) <==>
                && ArrayByKeyword(w.env, w.g, w.rank, r, d)
                && forall i :: 0 <= i < |d.items| ==> Satisfies(w, c, d.items[i]))
  {
    hide Accepts, Satisfies, Known, Guarded, ArrayByKeyword, EntryRefs, ItemRefs, ItemsRegular, AllIn, Sound, AdditionalRefs;
    LooseKnown(w, r);
  }

  lemma LooseKnown(w: World, r: Ref)
    requires Sound(w) && r in w.g && w.g[r].additionalItems.Some? && w.g[r].additionalItems.value.Sub?
    ensures var c := w.g[r].additionalItems.value.schema;
            c in w.g && AdditionalRefs(w.g[r].additionalItems) == [c] && [c][0] == c
  {
    hide Known, Guarded;
    BelowKnown(w.g, w.rank, r);
    assert AdditionalRefs(w.g[r].additionalItems)[0] == w.g[r].additionalItems.value.schema;
  }

  // ---------------------------------------------------------------- dependencies

  ghost predicate Enforces(w: World, bound: nat, dependency: Dependency, i: Instruction, d: Json)
    requires Sound(w)
  {
    match dependency
    case OnSchema(name, c) =>
      c in w.g && i.CheckSchemaDependency? && i.property == name && (Holds(w, bound, i.part, d) <==> Satisfies(w, c, d))
    case OnProperties(name, needed) => i == CheckPropertyDependency(name, needed)
  }

  lemma DependencyMeans(w: World, bound: nat, r: Ref, dep: Dependency, i: Instruction, d: Json)
    requires Sound(w) && r in w.g && d.Obj? && dep in Dependencies(w.g[r]) && Enforces(w, bound, dep, i, d)
    ensures Holds(w, bound, i, d) <==> DependencyAllows(w.env, w.g, w.rank, r, d, dep)
  {
    hide Accepts, Known, Guarded;
  }

  lemma {:induction false} DependenciesMean(w: World, bound: nat, r: Ref, k: nat, cs: seq<Instruction>, d: Json)
    requires Sound(w) && r in w.g && d.Obj? && k <= |Dependencies(w.g[r])|
    requires Agree(w, bound, cs, DependencyRefs(Dependencies(w.g[r])[k..]), d)
    ensures HoldAll(w, bound, DependencyChecks(Dependencies(w.g[r])[k..], cs), d) <==>
            forall dep :: dep in Dependencies(w.g[r])[k..] ==> DependencyAllows(w.env, w.g, w.rank, r, d, dep)
    decreases |Dependencies(w.g[r])| - k
  {
    hide Passes, Accepts, Known, Guarded, DependencyAllows, Dependencies;
    var ds := Dependencies(w.g[r]);
    var rest := ds[k..];
    if k < |ds| {
      assert rest[0] == ds[k] && rest[1..] == ds[k + 1..];
      var rs := DependencyRefs(rest);
      if ds[k].OnSchema? {
        assert rs == [ds[k].schema] + DependencyRefs(rest[1..]);
        assert rs[0] == ds[k].schema && rs[1..] == DependencyRefs(rest[1..]);
        Tail(w, bound, cs, rs, d);
        DependenciesMean(w, bound, r, k + 1, cs[1..], d);
        var i := CheckSchemaDependency(ds[k].property, cs[0]);
        DependencyMeans(w, bound, r, ds[k], i, d);
        Single(w, bound, i, d);
        HoldAllBoth(w, bound, [i], DependencyChecks(rest[1..], cs[1..]), d);
      } else {
        assert rs == DependencyRefs(rest[1..]);
        DependenciesMean(w, bound, r, k + 1, cs, d);
        var i := CheckPropertyDependency(ds[k].property, ds[k].needed);
        DependencyMeans(w, bound, r, ds[k], i, d);
        Single(w, bound, i, d);
        HoldAllBoth(w, bound, [i], DependencyChecks(rest[1..], cs), d);
      }
    }
  }

  lemma Tail(w: World, bound: nat, cs: seq<Instruction>, rs: seq<Ref>, d: Json)
    requires Sound(w) && rs != [] && Agree(w, bound, cs, rs, d)
    ensures rs[0] in w.g && (Holds(w, bound, cs[0], d) <==> Satisfies(w, rs[0], d))
    ensures Agree(w, bound, cs[1..], rs[1..], d)
  {
    hide Sound, Holds, Satisfies;
  }

  lemma AllDependenciesMean(w: World, bound: nat, r: Ref, ch: Children, d: Json)
    requires Sound(w) && r in w.g && Fitting(w.g[r], ch) && InPlaceAgree(w, bound, w.g[r], ch, d)
    ensures HoldAll(w, bound, DependencyChecks(Dependencies(w.g[r]), ch.dependencies), d) <==>
            (d.Obj? ==> forall dep :: dep in Dependencies(w.g[r]) ==> DependencyAllows(w.env, w.g, w.rank, r, d, dep))
  {
    var ds := Dependencies(w.g[r]);
    if d.Obj? {
      hide Passes, Accepts, Known, Guarded, DependencyAllows, Dependencies, DependencyChecks, DependencyRefs, HoldAll;
      assert ds[0..] == ds;
      DependenciesMean(w, bound, r, 0, ch.dependencies, d);
    } else {
      hide Accepts;
      NoObjectNoDependency(w, bound, ds, ch.dependencies, d);
    }
  }

  lemma NoObjectPasses(w: World, bound: nat, i: Instruction, d: Json)
    requires (i.CheckSchemaDependency? || i.CheckPropertyDependency?) && !d.Obj?
    ensures Holds(w, bound, i, d)
  {
  }

  lemma {:induction false} NoObjectNoDependency(w: World, bound: nat, ds: seq<Dependency>, cs: seq<Instruction>,
      d: Json)
    requires |cs| == |DependencyRefs(ds)| && !d.Obj?
    ensures HoldAll(w, bound, DependencyChecks(ds, cs), d)
  {
    hide HoldAll, Holds;
    if ds == [] {
      Empty(w, bound, d);
    } else {
      var i := if ds[0].OnSchema? then CheckSchemaDependency(ds[0].property, cs[0])
               else CheckPropertyDependency(ds[0].property, ds[0].needed);
      var rest := if ds[0].OnSchema? then cs[1..] else cs;
      NoObjectNoDependency(w, bound, ds[1..], rest, d);
      NoObjectPasses(w, bound, i, d);
      Single(w, bound, i, d);
      HoldAllBoth(w, bound, [i], DependencyChecks(ds[1..], rest), d);
    }
  }

  // ---------------------------------------------------------------- nodes

  lemma KeywordsJoin(w: World, bound: nat, n: SchemaNode, ch: Children, d: Json)
    requires Fitting(n, ch)
    ensures HoldAll(w, bound, Body(n, ch), d) <==>
            && HoldAll(w, bound, TypeChecks(n), d)
            && HoldAll(w, bound, if n.enumeration.Some? then [CheckEnum(n.enumeration.value)] else [], d)
            && HoldAll(w, bound, CombinedChecks(n, ch), d)
            && HoldAll(w, bound, if n.required.Some? then RequiredChecks(n.required.value) else [], d)
            && HoldAll(w, bound, ObjectChecks(n, ch), d)
            && HoldAll(w, bound, ArrayChecks(n, ch), d)
            && HoldAll(w, bound, NumberChecks(n), d)
            && HoldAll(w, bound, StringChecks(n), d)
            && HoldAll(w, bound, DependencyChecks(Dependencies(n), ch.dependencies), d)
  {
    hide HoldAll, TypeChecks, CombinedChecks, ObjectChecks, ArrayChecks, NumberChecks, StringChecks, DependencyChecks, Dependencies;
    var a := TypeChecks(n);
    var b := if n.enumeration.Some? then [CheckEnum(n.enumeration.value)] else [];
    var c := CombinedChecks(n, ch);
    var e := if n.required.Some? then RequiredChecks(n.required.value) else [];
    var f, h, i, j := ObjectChecks(n, ch), ArrayChecks(n, ch), NumberChecks(n), StringChecks(n);
    var k := DependencyChecks(Dependencies(n), ch.dependencies);
    HoldAllBoth(w, bound, a, b, d);
    HoldAllBoth(w, bound, a + b, c, d);
    HoldAllBoth(w, bound, a + b + c, e, d);
    HoldAllBoth(w, bound, a + b + c + e, f, d);
    HoldAllBoth(w, bound, a + b + c + e + f, h, d);
    HoldAllBoth(w, bound, a + b + c + e + f + h, i, d);
    HoldAllBoth(w, bound, a + b + c + e + f + h + i, j, d);
    HoldAllBoth(w, bound, a + b + c + e + f + h + i + j, k, d);
  }

  lemma AcceptsByKeyword(w: World, r: Ref, d: Json)
    requires Sound(w) && r in w.g
    ensures Satisfies(w, r, d) <==>
            var n := w.g[r];
            && TypeAllows(w.env, n.types, d) && EnumAllows(w.env, n.enumeration, d)
            && CombinedAllows(w.env, w.g, w.rank, r, d) && RequiredAllows(n, d)
            && (d.Obj? ==> ObjectAllows(w.env, w.g, w.rank, r, d)) && (d.Arr? ==> ArrayAllows(w.env, w.g, w.rank, r, d))
            && NumberAllows(w.env, n, d) && StringAllows(w.env, n, d)
            && (d.Obj? ==> forall dep :: dep in Dependencies(n) ==> DependencyAllows(w.env, w.g, w.rank, r, d, dep))
  {
    hide Known, Guarded, Dependencies, TypeAllows, EnumAllows, CombinedAllows, RequiredAllows, ObjectAllows, ArrayAllows,
      NumberAllows, StringAllows, DependencyAllows;
  }

  /** If the instructions of the subschemas mean what the subschemas do, the body means what the node does. */
  lemma BodyMeans(w: World, bound: nat, r: Ref, ch: Children, d: Json)
    requires Sound(w) && r in w.g && Fitting(w.g[r], ch) && Fits(d)
    requires w.env.reading == ByKeyword ==> IsReadAlike(w.env, w.g[r], d)
    requires InPlaceAgree(w, bound, w.g[r], ch, d) && PartsAgree(w, w.g[r], ch, d)
    ensures HoldAll(w, bound, Body(w.g[r], ch), d) <==> Satisfies(w, r, d)
  {
    var n := w.g[r];
    hide HoldAll, InPlaceAgree, PartsAgree, Body, Sound, Fitting, Fits, ArrayOutcome, Dependencies, Satisfies;
    hide TypeAllows, EnumAllows, CombinedAllows, RequiredAllows, ObjectAllows, ArrayAllows, NumberAllows, StringAllows,
      DependencyAllows, TypeChecks, CombinedChecks, ObjectChecks, ArrayChecks, NumberChecks, StringChecks, DependencyChecks;
    KeywordsJoin(w, bound, n, ch, d);
    AcceptsByKeyword(w, r, d);
    TypeMeans(w, bound, n, d);
    EnumMeans(w, bound, n, d);
    CombinedMeans(w, bound, r, ch, d);
    RequiredMeans(w, bound, n, d);
    ObjectMeans(w, bound, r, ch, d);
    ArrayChecksMean(w, bound, r, ch, d);
    if d.Arr? {
      OutcomeByReading(w, r, d);
    }
    NumberMeans(w, bound, n, d);
    StringMeans(w, bound, n, d);
    AllDependenciesMean(w, bound, r, ch, d);
  }

  // ---------------------------------------------------------------- graphs

  lemma RunsSequence(w: World, bound: nat, r: Ref, d: Json)
    requires r in w.bodies && r in w.rank
    ensures Holds(w, bound, SequenceOf(r), d) <==> w.rank[r] < bound && HoldAll(w, w.rank[r], w.bodies[r], d)
  {
  }

  lemma RegularParts(w: World, r: Ref, d: Json)
    requires Regular(w, d) && r in w.bodies && r in w.g
    ensures w.env.reading == ByKeyword ==> IsReadAlike(w.env, w.g[r], d)
    ensures d.Arr? ==> forall k :: 0 <= k < |d.items| ==> Regular(w, d.items[k])
    ensures d.Obj? ==> forall k :: k in d.fields ==> Regular(w, d.fields[k])
  {
    hide IsReadAlike;
  }

  /** By induction over the document, and for one document over the ranks. */
  lemma {:induction false} NodeMeans(w: World, bound: nat, r: Ref, d: Json)
    requires Sound(w) && Regular(w, d) && r in w.bodies && r in w.g && r in w.rank && w.rank[r] <= bound && Fits(d)
    ensures HoldAll(w, bound, w.bodies[r], d) <==> Satisfies(w, r, d)
    decreases d, w.rank[r], 1
  {
    hide HoldAll, Passes, Accepts, Satisfies, Agree, Body, AllLower, AllIn, AllStand, Regular, IsReadAlike;
    RegularParts(w, r, d);
    assert Known(w, r);
    var n, ch := w.g[r], w.kids[r];
    InPlaceKnown(w.g, w.rank, r);
    ListMeans(w, bound, w.rank[r], ch.allOf, Refs(n.allOf), d);
    ListMeans(w, bound, w.rank[r], ch.anyOf, Refs(n.anyOf), d);
    ListMeans(w, bound, w.rank[r], ch.oneOf, Refs(n.oneOf), d);
    ListMeans(w, bound, w.rank[r], ch.negated, NotRefs(n.negated), d);
    ListMeans(w, bound, w.rank[r], ch.dependencies, DependencyRefs(Dependencies(n)), d);
    if d.Arr? {
      forall k | 0 <= k < |d.items|
        ensures PartAgrees(w, n, ch, d.items[k])
      {
        PartMeans(w, r, d.items[k]);
      }
    } else if d.Obj? {
      forall k | k in d.fields
        ensures PartAgrees(w, n, ch, d.fields[k])
      {
        PartMeans(w, r, d.fields[k]);
      }
    }
    BodyMeans(w, bound, r, ch, d);
  }

  lemma {:induction false} PartMeans(w: World, r: Ref, e: Json)
    requires Sound(w) && Regular(w, e) && r in w.bodies && r in w.g && r in w.kids && Fits(e)
    ensures PartAgrees(w, w.g[r], w.kids[r], e)
    decreases e, w.top, 2
  {
    hide HoldAll, Passes, Accepts, Satisfies, Agree, Body, Regular;
    assert Known(w, r);
    var n, ch := w.g[r], w.kids[r];
    AllBelowTop(w, ch.properties, EntryRefs(n.properties));
    AllBelowTop(w, ch.patternProperties, EntryRefs(n.patternProperties));
    AllBelowTop(w, ch.additionalProperties, AdditionalRefs(n.additionalProperties));
    AllBelowTop(w, ch.items, ItemRefs(n.items));
    AllBelowTop(w, ch.additionalItems, AdditionalRefs(n.additionalItems));
    hide AllLower, AllIn, AllStand;
    ListMeans(w, w.top, w.top, ch.properties, EntryRefs(n.properties), e);
    ListMeans(w, w.top, w.top, ch.patternProperties, EntryRefs(n.patternProperties), e);
    ListMeans(w, w.top, w.top, ch.additionalProperties, AdditionalRefs(n.additionalProperties), e);
    ListMeans(w, w.top, w.top, ch.items, ItemRefs(n.items), e);
    ListMeans(w, w.top, w.top, ch.additionalItems, AdditionalRefs(n.additionalItems), e);
  }

  lemma AllBelowTop(w: World, cs: seq<Instruction>, rs: seq<Ref>)
    requires Sound(w) && AllStand(w.bodies, w.bodies.Keys, cs, rs)
    ensures AllLower(w.rank, rs, w.top)
  {
    forall k | 0 <= k < |rs|
      ensures rs[k] in w.rank && w.rank[rs[k]] < w.top
    {
      assert Known(w, rs[k]);
    }
  }

  lemma {:induction false} ListMeans(w: World, bound: nat, b: nat, cs: seq<Instruction>, rs: seq<Ref>, d: Json)
    requires Sound(w) && Regular(w, d) && Fits(d) && b <= bound
    requires AllStand(w.bodies, w.bodies.Keys, cs, rs) && AllLower(w.rank, rs, b)
    ensures Agree(w, bound, cs, rs, d)
    decreases d, b, 0
  {
    hide Holds, Satisfies, Known, Guarded, Regular, Fits, Stands;
    forall k | 0 <= k < |rs|
      ensures rs[k] in w.g && (Holds(w, bound, cs[k], d) <==> Satisfies(w, rs[k], d))
    {
      CompiledMeans(w, bound, rs[k], cs[k], d);
    }
  }

  /** What `Compile` gives for a node accepts exactly the documents that the keywords accept. */
  lemma {:induction false} CompiledMeans(w: World, bound: nat, r: Ref, i: Instruction, d: Json)
    requires Sound(w) && Regular(w, d) && r in w.bodies && Stands(w.bodies, i, r) && Fits(d)
    requires r in w.rank && w.rank[r] < bound
    ensures r in w.g && (Holds(w, bound, i, d) <==> Satisfies(w, r, d))
    decreases d, w.rank[r], 2
  {
    hide HoldAll, Passes, Accepts, Satisfies, Holds, Implements, Guarded, Regular, Fits;
    assert Known(w, r);
    if i == SequenceOf(r) {
      NodeMeans(w, w.rank[r], r, d);
      RunsSequence(w, bound, r, d);
    } else {
      NodeMeans(w, bound, r, d);
      assert w.bodies[r] == [i];
      Single(w, bound, i, d);
    }
  }

  /** When `Compile` is back at the top no node is half done, and every body implements its node. */
  lemma Complete(g: SchemaGraph, compiled: map<Ref, Instruction>, bodies: Bodies, kids: map<Ref, Children>)
    requires Consistent(g, compiled, bodies, kids) && Extends({}, map[], compiled.Keys, bodies)
    ensures compiled.Keys == bodies.Keys
    ensures forall s :: s in bodies ==> s in g && s in kids && Implements(bodies, bodies.Keys, g[s], kids[s], bodies[s])
  {
    hide Implements;
    forall s | s in compiled
      ensures s in bodies
    {
      assert s !in compiled.Keys - bodies.Keys;
    }
    assert compiled.Keys == bodies.Keys;
    forall s | s in bodies
      ensures s in g && s in kids && Implements(bodies, bodies.Keys, g[s], kids[s], bodies[s])
    {
      assert IsDone(g, compiled, bodies, kids, s);
    }
  }

  lemma IsSound(w: World, compiled: map<Ref, Instruction>)
    requires Consistent(w.g, compiled, w.bodies, w.kids) && Extends({}, map[], compiled.Keys, w.bodies)
    requires Guarded(w.g, w.rank) && (forall s :: s in w.g ==> w.rank[s] < w.top)
    ensures Sound(w) && compiled.Keys == w.bodies.Keys
    ensures forall s :: s in w.bodies ==> s in w.g && s in w.rank && w.rank[s] < w.top
  {
    hide Implements, Consistent, Extends;
    Complete(w.g, compiled, w.bodies, w.kids);
  }

  lemma IsRegularThere(w: World, d: Json)
    requires forall s :: s in w.bodies ==> s in w.g
    requires w.env.reading == ByKeyword ==> forall s :: s in w.g ==> IsRegular(w.env, w.g[s], d)
    ensures Regular(w, d)
  {
    hide IsRegular;
  }

  lemma SchemaMeans(w: World, compiled: map<Ref, Instruction>, r: Ref, i: Instruction, d: Json)
    requires Consistent(w.g, compiled, w.bodies, w.kids) && Extends({}, map[], compiled.Keys, w.bodies)
    requires r in compiled && Stands(w.bodies, i, r)
    requires w.env.reading == ByKeyword ==> forall s :: s in w.g ==> IsRegular(w.env, w.g[s], d)
    requires Guarded(w.g, w.rank) && (forall s :: s in w.g ==> w.rank[s] < w.top) && Fits(d)
    ensures r in w.g && (Passes(w.env, w.bodies, w.rank, w.top, w.top, i, d) <==> Accepts(w.env, w.g, w.rank, r, d))
  {
    hide Passes, Accepts, Stands, Implements, IsRegular, Extends, Consistent, Closed, Fits, Guarded, Known, Sound, Regular;
    IsSound(w, compiled);
    IsRegularThere(w, d);
    CompiledMeans(w, w.top, r, i, d);
  }

  /** What a document may be judged with. */
  ghost predicate Admits(g: SchemaGraph, env: Env, rank: map<Ref, nat>, top: nat, d: Json) {
    && Guarded(g, rank) && (forall s :: s in g ==> rank[s] < top) && Fits(d)
    && (env.reading == ByKeyword ==> forall s :: s in g ==> IsRegular(env, g[s], d))
  }

  /**
   * `DefaultSchema.compile` from an empty map, and what its result is for: under any ranking that guards the graph,
   * validating by instructions and reading the keywords agree on every document. Every graph is read as compiled, and one
   * whose nodes are regular for the document may as well be read by keyword.
   */
  method CompileSchema(g: SchemaGraph, r: Ref) returns (i: Instruction, bodies: Bodies)
    requires Closed(g) && r in g
    ensures forall env: Env, rank: map<Ref, nat>, top: nat, d: Json :: Admits(g, env, rank, top, d) ==>
              (Passes(env, bodies, rank, top, top, i, d) <==> Accepts(env, g, rank, r, d))
  {
    hide Passes, Accepts, Stands, Implements, Closed, IsDone, Admits;
    var compiler := new Compiler();
    i := compiler.Compile(g, r);
    bodies := compiler.bodies;
    ghost var kids, compiled := compiler.kids, compiler.compiled;
    forall env: Env, rank: map<Ref, nat>, top: nat, d: Json | Admits(g, env, rank, top, d)
      ensures Guarded(g, rank) && (Passes(env, bodies, rank, top, top, i, d) <==> Accepts(env, g, rank, r, d))
    {
      AdmittedMeans(World(env, g, rank, bodies, kids, top), compiled, r, i, d);
    }
  }

  lemma AdmittedMeans(w: World, compiled: map<Ref, Instruction>, r: Ref, i: Instruction, d: Json)
    requires Consistent(w.g, compiled, w.bodies, w.kids) && Extends({}, map[], compiled.Keys, w.bodies)
    requires r in compiled && Stands(w.bodies, i, r) && Admits(w.g, w.env, w.rank, w.top, d)
    ensures Guarded(w.g, w.rank) && r in w.g
    ensures Passes(w.env, w.bodies, w.rank, w.top, w.top, i, d) <==> Accepts(w.env, w.g, w.rank, r, d)
  {
    hide Passes, Accepts, Stands, Implements, IsRegular, Closed, Fits, Consistent, Extends;
    SchemaMeans(w, compiled, r, i, d);
  }

  // ---------------------------------------------------------------- where the two part

  const BLANK := SchemaNode(None, None, None, None, None, None, None, None, None, None, None, None, None, None, None,
                            None, None, None, None, None, None, None, None, None, None, None)

  const NO_CHILDREN := Children([], [], [], [], [], [], [], [], [], [])

  /** `{"additionalItems": false, "minItems": 1}` lets the empty array pass. */
  lemma EmptyArrayPasses(env: Env)
    requires env.reading == ByKeyword
    ensures var n := BLANK.(additionalItems := Some(Flag(false)), minItems := Some(1));
            && Fitting(n, NO_CHILDREN) && Guarded(map[0 := n], map[0 := 0])
            && AllPass(env, map[], map[0 := 0], 1, 1, Body(n, NO_CHILDREN), Arr([]))
            && !Accepts(env, map[0 := n], map[0 := 0], 0, Arr([]))
  {
    var n := BLANK.(additionalItems := Some(Flag(false)), minItems := Some(1));
    KeywordsRefuse(env, n);
    hide Accepts;
    var check := ArrayCheck(n, NO_CHILDREN);
    assert Body(n, NO_CHILDREN) == [check];
    assert SkipsSizes(check);
    Single(World(env, map[], map[0 := 0], map[], map[], 1), 1, check, Arr([]));
  }

  lemma KeywordsRefuse(env: Env, n: SchemaNode)
    requires env.reading == ByKeyword
    requires n == BLANK.(additionalItems := Some(Flag(false)), minItems := Some(1))
    ensures Guarded(map[0 := n], map[0 := 0]) && !Accepts(env, map[0 := n], map[0 := 0], 0, Arr([]))
  {
    OneNode(n);
    hide Guarded;
    assert !AtLeast(n.minItems, 0);
    assert !ArrayByKeyword(env, map[0 := n], map[0 := 0], 0, Arr([]));
  }

  const ES: Text := [0x65, 0x73]  // es
  const EXPRESSION: Text := [0x65, 0x78, 0x70, 0x72, 0x65, 0x73, 0x73, 0x69, 0x6F, 0x6E]  // expression

  /** `{"pattern": "es"}` refuses "expression", in which the pattern is found. */
  lemma PartialMatchRefused(env: Env)
    requires env.reading == ByKeyword && env.finds(ES, EXPRESSION) && !env.matches(ES, EXPRESSION)
    ensures var n := BLANK.(pattern := Some(ES));
            && Fitting(n, NO_CHILDREN) && Guarded(map[0 := n], map[0 := 0])
            && !AllPass(env, map[], map[0 := 0], 1, 1, Body(n, NO_CHILDREN), Str(EXPRESSION))
            && Accepts(env, map[0 := n], map[0 := 0], 0, Str(EXPRESSION))
  {
    var n := BLANK.(pattern := Some(ES));
    OneNode(n);
    FoundIsAccepted(env, n);
    OnlyStringChecks(n);
    hide Accepts, Guarded, Body, StringChecks, Passes;
    StringCompiled(World(env, map[], map[0 := 0], map[], map[], 1), 1, n, Str(EXPRESSION));
  }

  lemma OnlyStringChecks(n: SchemaNode)
    requires n == BLANK.(pattern := Some(ES))
    ensures Fitting(n, NO_CHILDREN) && Body(n, NO_CHILDREN) == StringChecks(n)
  {
  }

  lemma OneNode(n: SchemaNode)
    requires InPlace(n) == [] && PartRefs(n) == []
    ensures Guarded(map[0 := n], map[0 := 0])
  {
  }

  lemma FoundIsAccepted(env: Env, n: SchemaNode)
    requires n == BLANK.(pattern := Some(ES)) && env.reading == ByKeyword && env.finds(ES, EXPRESSION)
    ensures Guarded(map[0 := n], map[0 := 0]) && Accepts(env, map[0 := n], map[0 := 0], 0, Str(EXPRESSION))
  {
    OneNode(n);
    hide Guarded;
    var g, d := map[0 := n], Str(EXPRESSION);
    assert CombinedAllows(env, g, map[0 := 0], 0, d);
    assert StringAllows(env, n, d) && NumberAllows(env, n, d) && RequiredAllows(n, d);
  }

  /** `{"type": "integer"}` accepts 1.0, which is written with a fraction. */
  lemma WholeNumberAccepted(env: Env)
    requires env.reading == ByKeyword && env.decimal(ONE_POINT_ZERO) == 1.0
    ensures var n := BLANK.(types := Some(One("integer")));
            && Fitting(n, NO_CHILDREN) && Guarded(map[0 := n], map[0 := 0])
            && AllPass(env, map[], map[0 := 0], 1, 1, Body(n, NO_CHILDREN), Dec(ONE_POINT_ZERO))
            && !Accepts(env, map[0 := n], map[0 := 0], 0, Dec(ONE_POINT_ZERO))
  {
    var n := BLANK.(types := Some(One("integer")));
    OneNode(n);
    assert |"integer"| == 7 && |"number"| == 6 && |"any"| == 3;
    assert TypeNames(n.types) == ["integer"] && ["integer"][0] == "integer";
    assert IsWhole(1.0);
    WholeDiffers(env, n, ONE_POINT_ZERO);
    NotOfType(env, n, Dec(ONE_POINT_ZERO));
    hide Accepts, Guarded;
    var check := CheckType(["integer"]);
    assert Body(n, NO_CHILDREN) == [check];
    var w := World(env, map[], map[0 := 0], map[], map[], 1);
    TypeCompiled(w, 1, n, Dec(ONE_POINT_ZERO));
  }

  lemma NotOfType(env: Env, n: SchemaNode, d: Json)
    requires Guarded(map[0 := n], map[0 := 0]) && !TypeAllows(env, n.types, d)
    ensures !Accepts(env, map[0 := n], map[0 := 0], 0, d)
  {
    hide TypeAllows, CombinedAllows, ObjectAllows, ArrayAllows, Guarded;
  }

  const ONE_POINT_ZERO: Text := [0x31, DOT, 0x30]

  const LOOSE := BLANK.(additionalItems := Some(Sub(1)))
  const ONLY_STRINGS := BLANK.(types := Some(One("string")))

  /** `{"additionalItems": {"type": "string"}}` refuses `[null]`, which has no additional items. */
  lemma LooseElementRefused(env: Env)
    requires env.reading == ByKeyword
    ensures var g := map[0 := LOOSE, 1 := ONLY_STRINGS];
            var ch := NO_CHILDREN.(additionalItems := [CheckType(["string"])]);
            var rank: map<Ref, nat> := map[0 := 0, 1 := 0];
            && Fitting(LOOSE, ch) && Guarded(g, rank)
            && !AllPass(env, map[], rank, 1, 1, Body(LOOSE, ch), Arr([Null]))
            && Accepts(env, g, rank, 0, Arr([Null]))
  {
    var ch := NO_CHILDREN.(additionalItems := [CheckType(["string"])]);
    var rank: map<Ref, nat> := map[0 := 0, 1 := 0];
    InstructionRefuses(env, rank, ch);
    hide AllPass, Body;
    KeywordsAccept(env, rank);
  }

  lemma KeywordsAccept(env: Env, rank: map<Ref, nat>)
    requires env.reading == ByKeyword && rank == map[0 := 0, 1 := 0]
    ensures var g := map[0 := LOOSE, 1 := ONLY_STRINGS];
            Guarded(g, rank) && Accepts(env, g, rank, 0, Arr([Null]))
  {
    LooseGuarded(rank);
    hide Guarded;
    var g, d := map[0 := LOOSE, 1 := ONLY_STRINGS], Arr([Null]);
    assert ArrayByKeyword(env, g, rank, 0, d);
    assert ArrayAllows(env, g, rank, 0, d);
    assert CombinedAllows(env, g, rank, 0, d);
    assert NumberAllows(env, LOOSE, d) && StringAllows(env, LOOSE, d) && RequiredAllows(LOOSE, d);
  }

  lemma LooseGuarded(rank: map<Ref, nat>)
    requires rank == map[0 := 0, 1 := 0]
    ensures Guarded(map[0 := LOOSE, 1 := ONLY_STRINGS], rank)
  {
  }

  lemma NullIsNoString(env: Env, bodies: Bodies, rank: map<Ref, nat>)
    ensures !Passes(env, bodies, rank, 1, 1, CheckType(["string"]), Null)
  {
    assert TypeName(Null) == "null" && |"null"| == 4 && |"string"| == 6;
    assert |["string"]| == 1 && ["string"][0] == "string" && "string" != "integer";
  }

  lemma InstructionRefuses(env: Env, rank: map<Ref, nat>, ch: Children)
    requires ch == NO_CHILDREN.(additionalItems := [CheckType(["string"])])
    ensures Fitting(LOOSE, ch) && !AllPass(env, map[], rank, 1, 1, Body(LOOSE, ch), Arr([Null]))
  {
    hide Accepts, Passes;
    var check, d := ArrayCheck(LOOSE, ch), Arr([Null]);
    assert Body(LOOSE, ch) == [check];
    hide Body, ArrayChecks;
    var w := World(env, map[], rank, map[], map[], 1);
    NullIsNoString(env, map[], rank);
    Single(w, 1, check, d);
    RunsArray(w, 1, check, d);
    assert !ItemHolds(w, check, d.items[0], 0);
  }
}
