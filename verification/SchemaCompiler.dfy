/** `DefaultSchema.compile`: from schema nodes to instructions. */
module SchemaCompiler {
  import opened Units
  import opened JsonValues
  import opened Schemas

  // ---------------------------------------------------------------- instructions

  /** What an array or object check does with what its own lists do not name. */
  datatype Rest = Anything | Nothing | Each(check: Instruction)

  datatype Named = Named(name: Text, check: Instruction)

  /** `SequenceOf(r)` is the sequence object made for the schema node `r`, by reference: it may still be growing. */
  datatype Instruction =
    | SequenceOf(node: Ref)
    | CheckType(names: seq<string>)
    | CheckEnum(options: seq<Json>)
    | CheckAll(parts: seq<Instruction>)
    | CheckAny(alternates: seq<Instruction>)
    | CheckOne(alternates: seq<Instruction>)
    | CheckNot(part: Instruction)
    | CheckPresent(name: Text)
    | CheckObject(props: seq<Named>, patternProps: seq<Named>, others: Rest, min: int, max: int)
    | CheckArray(each: seq<Instruction>, tuple: Option<seq<Instruction>>, others: Rest, unique: bool, min: int, max: int)
    | CheckNumber(least: Option<real>, most: Option<real>, multipleOf: Option<real>, exclusiveMin: bool, exclusiveMax: bool)
    | CheckString(min: int, max: int, pattern: Option<Text>)
    | CheckSchemaDependency(property: Text, part: Instruction)
    | CheckPropertyDependency(property: Text, needed: seq<Text>)

  /** The sequence objects by node. */
  type Bodies = map<Ref, seq<Instruction>>

  // ---------------------------------------------------------------- running instructions

  /**
   * The document passes: `apply` gives back no errors. Sequences judging the same document must go down in rank, those
   * judging a part of it must stay below `top`; another program would not end.
   */
  ghost predicate Passes(env: Env, bodies: Bodies, rank: map<Ref, nat>, top: nat, bound: nat, i: Instruction, d: Json)
    decreases d, bound, i
  {
    match i
    case SequenceOf(r) =>
      && r in bodies && r in rank && rank[r] < bound
      && forall k :: 0 <= k < |bodies[r]| ==> Passes(env, bodies, rank, top, rank[r], bodies[r][k], d)
    case CheckType(names) => exists k :: 0 <= k < |names| && HasType(env, d, names[k])
    case CheckEnum(options) => exists k :: 0 <= k < |options| && Same(env, d, options[k])
    case CheckAll(parts) => forall k :: 0 <= k < |parts| ==> Passes(env, bodies, rank, top, bound, parts[k], d)
    case CheckAny(alternates) =>
      exists k :: 0 <= k < |alternates| && Passes(env, bodies, rank, top, bound, alternates[k], d)
    case CheckOne(alternates) => Matches(env, bodies, rank, top, bound, alternates, d) == 1
    case CheckNot(part) => !Passes(env, bodies, rank, top, bound, part, d)
    case CheckPresent(name) => d.Obj? ==> name in d.fields
    case CheckObject(props, patternProps, others, min, max) =>
      d.Obj? ==>
        && (forall k :: 0 <= k < |props| && props[k].name in d.fields ==>
              Passes(env, bodies, rank, top, top, props[k].check, d.fields[props[k].name]))
        && (forall k, name :: 0 <= k < |patternProps| && name in d.fields && env.finds(patternProps[k].name, name) ==>
              Passes(env, bodies, rank, top, top, patternProps[k].check, d.fields[name]))
        && (others != Anything ==> forall name :: name in d.fields && !IsChecked(env, props, patternProps, name) ==>
              others.Each? && Passes(env, bodies, rank, top, top, others.check, d.fields[name]))
        && min <= |d.fields| <= max
    case CheckArray(each, tuple, others, unique, min, max) =>
      d.Arr? && !(each == [] && tuple.None? && others.Nothing?) ==>
        && (forall k :: 0 <= k < |d.items| ==>
              if each != [] then Passes(env, bodies, rank, top, top, each[0], d.items[k])
              else if tuple.Some? && k < |tuple.value| then Passes(env, bodies, rank, top, top, tuple.value[k], d.items[k])
              else ElementPasses(env, bodies, rank, top, others, d.items[k]))
        && (unique ==> NoDuplicates(env, d.items))
        && min <= |d.items| <= max
    case CheckNumber(least, most, multipleOf, exclusiveMin, exclusiveMax) =>
      IsNumber(d) ==>
        var x := NumberValue(env, d);
        && (least.Some? ==> !(x < least.value || (exclusiveMin && x == least.value)))
        && (most.Some? ==> !(x > most.value || (exclusiveMax && x == most.value)))
        && (multipleOf.Some? ==> multipleOf.value != 0.0 && IsWhole(x / multipleOf.value))
    case CheckString(min, max, pattern) =>
      d.Str? ==> min <= CodePoints(d.s) <= max && (pattern.Some? ==> env.matches(pattern.value, d.s))
    case CheckSchemaDependency(property, part) =>
      d.Obj? && property in d.fields ==> Passes(env, bodies, rank, top, bound, part, d)
    case CheckPropertyDependency(property, needed) =>
      d.Obj? && property in d.fields ==> forall k :: 0 <= k < |needed| ==> needed[k] in d.fields
  }

  /** An element that the lists of the check do not name. */
  ghost predicate ElementPasses(env: Env, bodies: Bodies, rank: map<Ref, nat>, top: nat, others: Rest, e: Json)
    decreases e, top, others
  {
    match others
    case Anything => true
    case Nothing => false
    case Each(check) => Passes(env, bodies, rank, top, top, check, e)
  }

  predicate IsChecked(env: Env, props: seq<Named>, patternProps: seq<Named>, name: Text) {
    || (exists k :: 0 <= k < |props| && props[k].name == name)
    || exists k :: 0 <= k < |patternProps| && env.finds(patternProps[k].name, name)
  }

  ghost function Matches(env: Env, bodies: Bodies, rank: map<Ref, nat>, top: nat, bound: nat, cs: seq<Instruction>,
      d: Json): nat
    decreases d, bound, cs
  {
    if cs == [] then 0
    else (if Passes(env, bodies, rank, top, bound, cs[0], d) then 1 else 0) + Matches(env, bodies, rank, top, bound, cs[1..], d)
  }

  ghost predicate AllPass(env: Env, bodies: Bodies, rank: map<Ref, nat>, top: nat, bound: nat,
      cs: seq<Instruction>, d: Json) {
    forall k :: 0 <= k < |cs| ==> Passes(env, bodies, rank, top, bound, cs[k], d)
  }

  // ---------------------------------------------------------------- compiling one node

  /** The instructions of the subschemas of a node, in the order in which `compile` asks for them. */
  datatype Children = Children(
    allOf: seq<Instruction>,
    anyOf: seq<Instruction>,
    oneOf: seq<Instruction>,
    negated: seq<Instruction>,
    properties: seq<Instruction>,
    patternProperties: seq<Instruction>,
    additionalProperties: seq<Instruction>,
    items: seq<Instruction>,
    additionalItems: seq<Instruction>,
    dependencies: seq<Instruction>)

  predicate Fitting(n: SchemaNode, ch: Children) {
    && |ch.allOf| == |Refs(n.allOf)| && |ch.anyOf| == |Refs(n.anyOf)| && |ch.oneOf| == |Refs(n.oneOf)|
    && |ch.negated| == |NotRefs(n.negated)|
    && |ch.properties| == |EntryRefs(n.properties)| && |ch.patternProperties| == |EntryRefs(n.patternProperties)|
    && |ch.additionalProperties| == |AdditionalRefs(n.additionalProperties)|
    && |ch.items| == |ItemRefs(n.items)| && |ch.additionalItems| == |AdditionalRefs(n.additionalItems)|
    && |ch.dependencies| == |DependencyRefs(Dependencies(n))|
  }

  function TypeChecks(n: SchemaNode): seq<Instruction> {
    match n.types
    case None => []
    case Some(One(name)) => if name == "any" then [] else [CheckType([name])]
    case Some(Several(names)) => [CheckType(names)]
  }

  function CombinedChecks(n: SchemaNode, ch: Children): seq<Instruction>
    requires Fitting(n, ch)
  {
    (if n.allOf.Some? then [CheckAll(ch.allOf)] else [])
    + (if n.anyOf.Some? then [CheckAny(ch.anyOf)] else [])
    + (if n.oneOf.Some? then [CheckOne(ch.oneOf)] else [])
    + (if n.negated.Some? then [CheckNot(ch.negated[0])] else [])
  }

  function RequiredChecks(names: seq<Text>): (cs: seq<Instruction>)
    ensures |cs| == |names| && forall k :: 0 <= k < |cs| ==> cs[k] == CheckPresent(names[k])
  {
    seq(|names|, k requires 0 <= k < |names| => CheckPresent(names[k]))
  }

  function Names(o: Option<seq<Property>>, cs: seq<Instruction>): (ns: seq<Named>)
    requires |cs| == |EntryRefs(o)|
    ensures |ns| == |cs| && forall k :: 0 <= k < |ns| ==> ns[k] == Named(o.value[k].name, cs[k])
  {
    seq(|cs|, k requires 0 <= k < |cs| => Named(o.value[k].name, cs[k]))
  }

  function RestOf(o: Option<Additional>, cs: seq<Instruction>): Rest
    requires |cs| == |AdditionalRefs(o)|
  {
    if o.None? then Anything
    else if o.value.Sub? then Rest.Each(cs[0])
    else if o.value.allowed then Anything else Nothing
  }

  function MinOf(o: Option<int>): int {
    if o.Some? then o.value else 0
  }

  function MaxOf(o: Option<int>): int {
    if o.Some? then o.value else INT_MAX
  }

  function ObjectCheck(n: SchemaNode, ch: Children): (check: Instruction)
    requires Fitting(n, ch)
    ensures check.CheckObject?
  {
    CheckObject(Names(n.properties, ch.properties), Names(n.patternProperties, ch.patternProperties),
                RestOf(n.additionalProperties, ch.additionalProperties), MinOf(n.minProperties), MaxOf(n.maxProperties))
  }

  function ObjectChecks(n: SchemaNode, ch: Children): seq<Instruction>
    requires Fitting(n, ch)
  {
    var check := ObjectCheck(n, ch);
    if check.props != [] || check.patternProps != [] || check.others != Anything || check.min > 0 || check.max < INT_MAX
    then [check] else []
  }

  function ArrayCheck(n: SchemaNode, ch: Children): (check: Instruction)
    requires Fitting(n, ch)
    ensures check.CheckArray?
  {
    CheckArray(if n.items.Some? && n.items.value.Each? then ch.items else [],
               if n.items.Some? && n.items.value.Tuple? then Some(ch.items) else None,
               RestOf(n.additionalItems, ch.additionalItems), n.uniqueItems == Some(true),
               MinOf(n.minItems), MaxOf(n.maxItems))
  }

  function ArrayChecks(n: SchemaNode, ch: Children): seq<Instruction>
    requires Fitting(n, ch)
  {
    var check := ArrayCheck(n, ch);
    if check.each != [] || check.tuple.Some? || check.others != Anything || n.uniqueItems.Some?
      || check.max < INT_MAX || check.min > 0
    then [check] else []
  }

  function NumberChecks(n: SchemaNode): seq<Instruction> {
    if n.minimum.Some? || n.maximum.Some? || n.multipleOf.Some?
    then [CheckNumber(n.minimum, n.maximum, n.multipleOf, n.exclusiveMinimum == Some(true), n.exclusiveMaximum == Some(true))]
    else []
  }

  function StringChecks(n: SchemaNode): seq<Instruction> {
    if MinOf(n.minLength) > 0 || MaxOf(n.maxLength) < INT_MAX || n.pattern.Some?
    then [CheckString(MinOf(n.minLength), MaxOf(n.maxLength), n.pattern)] else []
  }

  function DependencyChecks(ds: seq<Dependency>, cs: seq<Instruction>): seq<Instruction>
    requires |cs| == |DependencyRefs(ds)|
  {
    if ds == [] then []
    else if ds[0].OnSchema? then [CheckSchemaDependency(ds[0].property, cs[0])] + DependencyChecks(ds[1..], cs[1..])
    else [CheckPropertyDependency(ds[0].property, ds[0].needed)] + DependencyChecks(ds[1..], cs)
  }

  /** The sequence `compile` builds for a node out of the instructions of its subschemas. */
  function Body(n: SchemaNode, ch: Children): seq<Instruction>
    requires Fitting(n, ch)
  {
    TypeChecks(n)
    + (if n.enumeration.Some? then [CheckEnum(n.enumeration.value)] else [])
    + CombinedChecks(n, ch)
    + (if n.required.Some? then RequiredChecks(n.required.value) else [])
    + ObjectChecks(n, ch)
    + ArrayChecks(n, ch)
    + NumberChecks(n)
    + StringChecks(n)
    + DependencyChecks(Dependencies(n), ch.dependencies)
  }

  // ---------------------------------------------------------------- compiling the graph

  /** A sequence of one is unwrapped. */
  function Unwrapped(r: Ref, body: seq<Instruction>): Instruction {
    if |body| == 1 then body[0] else SequenceOf(r)
  }

  /** `i` is what `compile` gives for the node `r`: its sequence, or the only element of it once it is complete. */
  ghost predicate Stands(bodies: Bodies, i: Instruction, r: Ref) {
    i == SequenceOf(r) || (r in bodies && |bodies[r]| == 1 && i == bodies[r][0])
  }

  ghost predicate AllStand(bodies: Bodies, known: set<Ref>, cs: seq<Instruction>, rs: seq<Ref>) {
    |cs| == |rs| && forall k :: 0 <= k < |rs| ==> rs[k] in known && Stands(bodies, cs[k], rs[k])
  }

  ghost predicate ChildrenStand(bodies: Bodies, known: set<Ref>, n: SchemaNode, ch: Children) {
    && AllStand(bodies, known, ch.allOf, Refs(n.allOf))
    && AllStand(bodies, known, ch.anyOf, Refs(n.anyOf))
    && AllStand(bodies, known, ch.oneOf, Refs(n.oneOf))
    && AllStand(bodies, known, ch.negated, NotRefs(n.negated))
    && AllStand(bodies, known, ch.properties, EntryRefs(n.properties))
    && AllStand(bodies, known, ch.patternProperties, EntryRefs(n.patternProperties))
    && AllStand(bodies, known, ch.additionalProperties, AdditionalRefs(n.additionalProperties))
    && AllStand(bodies, known, ch.items, ItemRefs(n.items))
    && AllStand(bodies, known, ch.additionalItems, AdditionalRefs(n.additionalItems))
    && AllStand(bodies, known, ch.dependencies, DependencyRefs(Dependencies(n)))
  }

  /** The body is the one for the node, and every subschema instruction in it stands for its subschema. */
  ghost predicate Implements(bodies: Bodies, known: set<Ref>, n: SchemaNode, ch: Children, body: seq<Instruction>) {
    ChildrenStand(bodies, known, n, ch) && Fitting(n, ch) && body == Body(n, ch)
  }

  /**
   * The state of the compiler: nodes with a body are done, the other nodes in the map are being compiled and answer with
   * their sequence.
   */
  ghost predicate Consistent(g: SchemaGraph, compiled: map<Ref, Instruction>, bodies: Bodies,
      kids: map<Ref, Children>) {
    && bodies.Keys <= compiled.Keys <= g.Keys && kids.Keys == bodies.Keys
    && (forall r :: r in compiled && r !in bodies ==> compiled[r] == SequenceOf(r))
    && forall r :: r in bodies ==> IsDone(g, compiled, bodies, kids, r)
  }

  ghost predicate IsDone(g: SchemaGraph, compiled: map<Ref, Instruction>, bodies: Bodies, kids: map<Ref, Children>,
      r: Ref)
    requires r in bodies && r in compiled && r in g && r in kids
  {
    compiled[r] == Unwrapped(r, bodies[r]) && Implements(bodies, compiled.Keys, g[r], kids[r], bodies[r])
  }

  /** Bodies stay as they are, nodes are only added, and none is left half done that was not before. */
  ghost predicate Extends(known: set<Ref>, bodies: Bodies, known': set<Ref>, bodies': Bodies) {
    && known <= known' && known' - bodies'.Keys == known - bodies.Keys
    && forall r :: r in bodies ==> r in bodies' && bodies'[r] == bodies[r]
  }

  lemma Lift(known: set<Ref>, bodies: Bodies, known': set<Ref>, bodies': Bodies, cs: seq<Instruction>, rs: seq<Ref>)
    requires known <= known' && (forall r :: r in bodies ==> r in bodies' && bodies'[r] == bodies[r])
    requires AllStand(bodies, known, cs, rs)
    ensures AllStand(bodies', known', cs, rs)
  {
  }

  lemma OneMore(bodies: Bodies, known: set<Ref>, cs: seq<Instruction>, rs: seq<Ref>, i: Instruction)
    requires |cs| < |rs| && AllStand(bodies, known, cs, rs[..|cs|])
    requires rs[|cs|] in known && Stands(bodies, i, rs[|cs|])
    ensures AllStand(bodies, known, cs + [i], rs[..|cs| + 1])
  {
  }

  lemma LiftChildren(known: set<Ref>, bodies: Bodies, known': set<Ref>, bodies': Bodies, n: SchemaNode, ch: Children)
    requires known <= known' && (forall r :: r in bodies ==> r in bodies' && bodies'[r] == bodies[r])
    requires ChildrenStand(bodies, known, n, ch)
    ensures ChildrenStand(bodies', known', n, ch)
  {
    Lift(known, bodies, known', bodies', ch.allOf, Refs(n.allOf));
    Lift(known, bodies, known', bodies', ch.anyOf, Refs(n.anyOf));
    Lift(known, bodies, known', bodies', ch.oneOf, Refs(n.oneOf));
    Lift(known, bodies, known', bodies', ch.negated, NotRefs(n.negated));
    Lift(known, bodies, known', bodies', ch.properties, EntryRefs(n.properties));
    Lift(known, bodies, known', bodies', ch.patternProperties, EntryRefs(n.patternProperties));
    Lift(known, bodies, known', bodies', ch.additionalProperties, AdditionalRefs(n.additionalProperties));
    Lift(known, bodies, known', bodies', ch.items, ItemRefs(n.items));
    Lift(known, bodies, known', bodies', ch.additionalItems, AdditionalRefs(n.additionalItems));
    Lift(known, bodies, known', bodies', ch.dependencies, DependencyRefs(Dependencies(n)));
  }

  lemma StillDone(g: SchemaGraph, compiled: map<Ref, Instruction>, bodies: Bodies, kids: map<Ref, Children>,
                  compiled': map<Ref, Instruction>, bodies': Bodies, kids': map<Ref, Children>, t: Ref)
    requires t in bodies && t in compiled && t in g && t in kids && IsDone(g, compiled, bodies, kids, t)
    requires t in compiled' && t in kids' && compiled'[t] == compiled[t] && kids'[t] == kids[t]
    requires compiled.Keys <= compiled'.Keys && forall r :: r in bodies ==> r in bodies' && bodies'[r] == bodies[r]
    ensures IsDone(g, compiled', bodies', kids', t)
  {
    LiftChildren(compiled.Keys, bodies, compiled'.Keys, bodies', g[t], kids[t]);
  }

  lemma NowDone(g: SchemaGraph, compiled: map<Ref, Instruction>, bodies: Bodies, kids: map<Ref, Children>, r: Ref,
      ch: Children)
    requires r in compiled && r in g && r !in bodies && ChildrenStand(bodies, compiled.Keys, g[r], ch)
    ensures Fitting(g[r], ch)
    ensures var body := Body(g[r], ch);
            var compiled' := compiled[r := Unwrapped(r, body)];
            IsDone(g, compiled', bodies[r := body], kids[r := ch], r)
  {
    var body := Body(g[r], ch);
    var compiled' := compiled[r := Unwrapped(r, body)];
    assert compiled'.Keys == compiled.Keys;
    LiftChildren(compiled.Keys, bodies, compiled'.Keys, bodies[r := body], g[r], ch);
  }

  lemma Finish(g: SchemaGraph, compiled: map<Ref, Instruction>, bodies: Bodies, kids: map<Ref, Children>, r: Ref,
      ch: Children)
    requires Consistent(g, compiled, bodies, kids) && r in compiled && r !in bodies && r in g
    requires ChildrenStand(bodies, compiled.Keys, g[r], ch)
    ensures Fitting(g[r], ch)
    ensures var body := Body(g[r], ch);
            Consistent(g, compiled[r := Unwrapped(r, body)], bodies[r := body], kids[r := ch])
  {
    hide IsDone, ChildrenStand, Body;
    NowDone(g, compiled, bodies, kids, r, ch);
    var body := Body(g[r], ch);
    var compiled', bodies', kids' := compiled[r := Unwrapped(r, body)], bodies[r := body], kids[r := ch];
    assert bodies'.Keys == bodies.Keys + {r} && kids'.Keys == kids.Keys + {r} && compiled'.Keys == compiled.Keys;
    forall t | t in bodies'
      ensures IsDone(g, compiled', bodies', kids', t)
    {
      if t != r {
        StillDone(g, compiled, bodies, kids, compiled', bodies', kids', t);
      }
    }
  }

  lemma InProgress(known: set<Ref>, bodies: Bodies, known': set<Ref>, bodies': Bodies, r: Ref)
    requires r !in known && bodies.Keys <= known && Extends(known + {r}, bodies, known', bodies')
    ensures r in known' && r !in bodies'
  {
    assert r in (known + {r}) - bodies.Keys;
    assert r in known' - bodies'.Keys;
  }

  lemma Completed(known: set<Ref>, bodies: Bodies, known': set<Ref>, bodies': Bodies, r: Ref, body: seq<Instruction>)
    requires r !in known && bodies.Keys <= known && Extends(known + {r}, bodies, known', bodies')
    ensures Extends(known, bodies, known', bodies'[r := body])
  {
    InProgress(known, bodies, known', bodies', r);
    var after := bodies'[r := body];
    assert after.Keys == bodies'.Keys + {r};
    assert known' - after.Keys == (known' - bodies'.Keys) - {r};
    assert ((known + {r}) - bodies.Keys) - {r} == known - bodies.Keys;
  }

  /** What finishing a node makes of the state in which its subschemas are compiled. */
  lemma Conclude(g: SchemaGraph, known: set<Ref>, before: Bodies, compiled: map<Ref, Instruction>, bodies: Bodies,
                 kids: map<Ref, Children>, r: Ref, ch: Children)
    requires r in g && r !in known && before.Keys <= known
    requires Extends(known + {r}, before, compiled.Keys, bodies) && Consistent(g, compiled, bodies, kids)
    requires ChildrenStand(bodies, compiled.Keys, g[r], ch)
    ensures Fitting(g[r], ch)
    ensures var body := Body(g[r], ch);
            var compiled', bodies' := compiled[r := Unwrapped(r, body)], bodies[r := body];
            && Consistent(g, compiled', bodies', kids[r := ch])
            && Extends(known, before, compiled'.Keys, bodies')
            && r in compiled' && r in bodies' && Stands(bodies', Unwrapped(r, body), r)
  {
    hide Body, ChildrenStand, Consistent;
    InProgress(known, before, compiled.Keys, bodies, r);
    Finish(g, compiled, bodies, kids, r, ch);
    var body := Body(g[r], ch);
    Completed(known, before, compiled.Keys, bodies, r, body);
    assert compiled[r := Unwrapped(r, body)].Keys == compiled.Keys;
  }

  lemma Fewer(all: set<Ref>, known: set<Ref>, known': set<Ref>)
    requires known <= known'
    ensures |all - known'| <= |all - known|
    ensures known <= all && known' <= all && known != known' ==> |all - known'| < |all - known|
  {
    var lost := (all - known) * known';
    assert all - known == (all - known') + lost;
    if known <= all && known' <= all && known != known' {
      assert lost == known' - known;
      assert exists r :: r in known' && r !in known;
      assert lost != {};
    }
  }

  class Compiler {
    var compiled: map<Ref, Instruction>
    var bodies: Bodies
    ghost var kids: map<Ref, Children>

    ghost predicate Valid(g: SchemaGraph)
      reads this
    {
      Consistent(g, compiled, bodies, kids)
    }

    constructor ()
      ensures compiled == map[] && bodies == map[] && kids == map[]
    {
      compiled, bodies, kids := map[], map[], map[];
    }

    /** Each call finds the nodes not yet in the map fewer by one when it enters a new node. */
    method Compile(g: SchemaGraph, r: Ref) returns (i: Instruction)
      requires Closed(g) && Valid(g) && r in g
      modifies this
      ensures Valid(g) && Extends(old(compiled.Keys), old(bodies), compiled.Keys, bodies)
      ensures r in compiled && Stands(bodies, i, r)
      ensures r !in old(compiled) ==> r in bodies && i == Unwrapped(r, bodies[r])
      decreases |g.Keys - compiled.Keys|, 1
    {
      hide Body, ChildrenStand, Consistent;
      if r in compiled {
        Found(g, compiled, bodies, kids, r);
        return compiled[r];
      }
      ghost var known, before := compiled.Keys, bodies;
      Enter(g, compiled, bodies, kids, r);
      Bounded(g, compiled, bodies, kids);
      compiled := compiled[r := SequenceOf(r)];
      assert compiled.Keys == known + {r};
      Fewer(g.Keys, known, compiled.Keys);
      var ch := CompileChildren(g, r);
      Conclude(g, known, before, compiled, bodies, kids, r, ch);
      var body := Body(g[r], ch);
      i := Unwrapped(r, body);
      compiled, bodies, kids := compiled[r := i], bodies[r := body], kids[r := ch];
    }

    static lemma Found(g: SchemaGraph, compiled: map<Ref, Instruction>, bodies: Bodies, kids: map<Ref, Children>,
        r: Ref)
      requires Consistent(g, compiled, bodies, kids) && r in compiled
      ensures Stands(bodies, compiled[r], r)
      ensures Extends(compiled.Keys, bodies, compiled.Keys, bodies)
    {
      assert r in bodies ==> IsDone(g, compiled, bodies, kids, r);
    }

    static lemma Bounded(g: SchemaGraph, compiled: map<Ref, Instruction>, bodies: Bodies, kids: map<Ref, Children>)
      requires Consistent(g, compiled, bodies, kids)
      ensures bodies.Keys <= compiled.Keys <= g.Keys
    {
    }

    static lemma Enter(g: SchemaGraph, compiled: map<Ref, Instruction>, bodies: Bodies, kids: map<Ref, Children>,
        r: Ref)
      requires Consistent(g, compiled, bodies, kids) && r in g && r !in compiled
      ensures Consistent(g, compiled[r := SequenceOf(r)], bodies, kids)
    {
      var compiled' := compiled[r := SequenceOf(r)];
      forall t | t in bodies
        ensures IsDone(g, compiled', bodies, kids, t)
      {
        StillDone(g, compiled, bodies, kids, compiled', bodies, kids, t);
      }
    }

    method CompileAll(g: SchemaGraph, rs: seq<Ref>) returns (cs: seq<Instruction>)
      requires Closed(g) && Valid(g) && forall k :: 0 <= k < |rs| ==> rs[k] in g
      modifies this
      ensures Valid(g) && Extends(old(compiled.Keys), old(bodies), compiled.Keys, bodies)
      ensures AllStand(bodies, compiled.Keys, cs, rs)
      decreases |g.Keys - compiled.Keys|, 2
    {
      cs := [];
      for k := 0 to |rs|
        invariant Valid(g) && Extends(old(compiled.Keys), old(bodies), compiled.Keys, bodies)
        invariant |cs| == k && AllStand(bodies, compiled.Keys, cs, rs[..k])
      {
        ghost var known, before := compiled.Keys, bodies;
        Fewer(g.Keys, old(compiled.Keys), known);
        var i := Compile(g, rs[k]);
        Lift(known, before, compiled.Keys, bodies, cs, rs[..k]);
        OneMore(bodies, compiled.Keys, cs, rs, i);
        cs := cs + [i];
      }
      assert rs[..|rs|] == rs;
    }

    /** The subschemas under each keyword in turn. */
    method CompileLists(g: SchemaGraph, lists: seq<seq<Ref>>) returns (css: seq<seq<Instruction>>)
      requires Closed(g) && Valid(g)
      requires forall j, k :: 0 <= j < |lists| && 0 <= k < |lists[j]| ==> lists[j][k] in g
      modifies this
      ensures Valid(g) && Extends(old(compiled.Keys), old(bodies), compiled.Keys, bodies)
      ensures |css| == |lists| && forall j :: 0 <= j < |lists| ==> AllStand(bodies, compiled.Keys, css[j], lists[j])
      decreases |g.Keys - compiled.Keys|, 3
    {
      hide AllStand, Closed, Consistent;
      css := [];
      for j := 0 to |lists|
        invariant Valid(g) && Extends(old(compiled.Keys), old(bodies), compiled.Keys, bodies)
        invariant |css| == j && forall k :: 0 <= k < j ==> AllStand(bodies, compiled.Keys, css[k], lists[k])
      {
        ghost var known, before := compiled.Keys, bodies;
        Fewer(g.Keys, old(compiled.Keys), known);
        var cs := CompileAll(g, lists[j]);
        forall k | 0 <= k < j
          ensures AllStand(bodies, compiled.Keys, css[k], lists[k])
        {
          Lift(known, before, compiled.Keys, bodies, css[k], lists[k]);
        }
        css := css + [cs];
      }
    }

    method CompileChildren(g: SchemaGraph, r: Ref) returns (ch: Children)
      requires Closed(g) && Valid(g) && r in g
      modifies this
      ensures Valid(g) && Extends(old(compiled.Keys), old(bodies), compiled.Keys, bodies)
      ensures ChildrenStand(bodies, compiled.Keys, g[r], ch)
      decreases |g.Keys - compiled.Keys|, 4
    {
      ListsOf(g, r);
      var css := CompileLists(g, ChildLists(g[r]));
      ch := Children(css[0], css[1], css[2], css[3], css[4], css[5], css[6], css[7], css[8], css[9]);
    }
  }

  /** The subschemas of a node by keyword, in the order of `compile`. */
  function ChildLists(n: SchemaNode): (lists: seq<seq<Ref>>)
    ensures |lists| == 10
  {
    [Refs(n.allOf), Refs(n.anyOf), Refs(n.oneOf), NotRefs(n.negated), EntryRefs(n.properties),
     EntryRefs(n.patternProperties), AdditionalRefs(n.additionalProperties), ItemRefs(n.items),
     AdditionalRefs(n.additionalItems), DependencyRefs(Dependencies(n))]
  }

  lemma ListsOf(g: SchemaGraph, r: Ref)
    requires Closed(g) && r in g
    ensures var lists := ChildLists(g[r]);
            forall j, k :: 0 <= j < |lists| && 0 <= k < |lists[j]| ==> lists[j][k] in g
  {
    hide ChildLists, InPlace, PartRefs;
    var n, lists := g[r], ChildLists(g[r]);
    forall j, k | 0 <= j < |lists| && 0 <= k < |lists[j]|
      ensures lists[j][k] in g
    {
      var c := lists[j][k];
      IsPart(n, j, c);
      assert c in InPlace(n) + PartRefs(n);
    }
  }

  lemma IsPart(n: SchemaNode, j: nat, c: Ref)
    requires j < 10 && c in ChildLists(n)[j]
    ensures c in InPlace(n) || c in PartRefs(n)
  {
    hide InPlace, PartRefs, Refs, NotRefs, EntryRefs, AdditionalRefs, ItemRefs, DependencyRefs;
    InPlaceParts(n, c);
    BelowParts(n, c);
  }

  lemma InPlaceParts(n: SchemaNode, c: Ref)
    ensures c in Refs(n.allOf) || c in Refs(n.anyOf) || c in Refs(n.oneOf) ==> c in InPlace(n)
    ensures c in NotRefs(n.negated) || c in DependencyRefs(Dependencies(n)) ==> c in InPlace(n)
  {
    hide Refs, NotRefs, DependencyRefs;
  }

  lemma BelowParts(n: SchemaNode, c: Ref)
    ensures c in EntryRefs(n.properties) || c in EntryRefs(n.patternProperties) ==> c in PartRefs(n)
    ensures c in AdditionalRefs(n.additionalProperties) || c in ItemRefs(n.items) ==> c in PartRefs(n)
    ensures c in AdditionalRefs(n.additionalItems) ==> c in PartRefs(n)
  {
    hide EntryRefs, AdditionalRefs, ItemRefs;
  }
}
