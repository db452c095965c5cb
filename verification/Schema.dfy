/** JSON schemas as graphs of nodes, and what their keywords ask of a document. */
module Schemas {
  import opened Units
  import opened JsonValues

  type Ref = nat

  datatype TypeKeyword = One(name: string) | Several(names: seq<string>)

  datatype Property = Property(name: Text, schema: Ref)

  datatype Additional = Flag(allowed: bool) | Sub(schema: Ref)

  datatype Items = Each(schema: Ref) | Tuple(schemas: seq<Ref>)

  datatype Dependency =
    | OnSchema(property: Text, schema: Ref)
    | OnProperties(property: Text, needed: seq<Text>)

  /** The keywords of a schema object, each present or not; the fields of an object keyword come in visiting order. */
  datatype SchemaNode = SchemaNode(
    types: Option<TypeKeyword>,
    enumeration: Option<seq<Json>>,
    allOf: Option<seq<Ref>>,
    anyOf: Option<seq<Ref>>,
    oneOf: Option<seq<Ref>>,
    negated: Option<Ref>,
    required: Option<seq<Text>>,
    properties: Option<seq<Property>>,
    patternProperties: Option<seq<Property>>,
    additionalProperties: Option<Additional>,
    minProperties: Option<int>,
    maxProperties: Option<int>,
    items: Option<Items>,
    additionalItems: Option<Additional>,
    uniqueItems: Option<bool>,
    minItems: Option<int>,
    maxItems: Option<int>,
    minimum: Option<real>,
    maximum: Option<real>,
    multipleOf: Option<real>,
    exclusiveMinimum: Option<bool>,
    exclusiveMaximum: Option<bool>,
    minLength: Option<int>,
    maxLength: Option<int>,
    pattern: Option<Text>,
    dependencies: Option<seq<Dependency>>)

  type SchemaGraph = map<Ref, SchemaNode>

  const INT_MAX := 0x7FFF_FFFF

  /**
   * How keywords are read: as draft 4, which the documentation promises, has them, or as `compile` takes them. The two part
   * at `additionalItems` without `items`, at `pattern`, and at the type `integer`.
   */
  datatype KeywordReading = ByKeyword | AsCompiled

  /**
   * What the model takes from outside: the value of a decimal literal, and the two ways a regular expression is used. With
   * it goes the reading that a document is judged by.
   */
  datatype Env = Env(
    decimal: Text -> real,
    matches: (Text, Text) -> bool,  // pattern.matcher(s).matches()
    finds: (Text, Text) -> bool,    // pattern.matcher(s).find()
    reading: KeywordReading)

  // ---------------------------------------------------------------- documents

  predicate IsNumber(d: Json) {
    d.Int? || d.Dec?
  }

  /** `asDouble`, over the reals. */
  function NumberValue(env: Env, d: Json): real
    requires IsNumber(d)
  {
    if d.Int? then d.n as real else env.decimal(d.literal)
  }

  predicate IsWhole(x: real) {
    x == x.Floor as real
  }

  /** `equals`: numbers are compared by value, whatever class holds them. */
  predicate Same(env: Env, a: Json, b: Json)
    decreases a
  {
    match a
    case Null => b.Null?
    case Bool(v) => b == a
    case Str(s) => b == a
    case Int(_) => IsNumber(b) && NumberValue(env, a) == NumberValue(env, b)
    case Dec(_) => IsNumber(b) && NumberValue(env, a) == NumberValue(env, b)
    case Arr(items) =>
      b.Arr? && |b.items| == |items| && forall i :: 0 <= i < |items| ==> Same(env, items[i], b.items[i])
    case Obj(fields) =>
      b.Obj? && b.fields.Keys == fields.Keys && forall k :: k in fields ==> Same(env, fields[k], b.fields[k])
  }

  /** `codePointCount`: a surrogate pair counts once. */
  function CodePoints(s: Text): (n: nat)
    ensures n <= |s|
  {
    if s == [] then 0
    else if |s| >= 2 && 0xD800 <= s[0] <= 0xDBFF && 0xDC00 <= s[1] <= 0xDFFF then 1 + CodePoints(s[2..])
    else 1 + CodePoints(s[1..])
  }

  /** Sizes that a Java program can hold. */
  predicate Fits(d: Json)
    decreases d
  {
    match d
    case Str(s) => |s| <= INT_MAX
    case Arr(items) => |items| <= INT_MAX && forall i :: 0 <= i < |items| ==> Fits(items[i])
    case Obj(fields) => |fields| <= INT_MAX && forall k :: k in fields ==> Fits(fields[k])
    case _ => true
  }

  // ---------------------------------------------------------------- which graphs are meant

  function Refs(o: Option<seq<Ref>>): seq<Ref> {
    if o.Some? then o.value else []
  }

  function EntryRefs(o: Option<seq<Property>>): (rs: seq<Ref>)
    ensures |rs| == if o.Some? then |o.value| else 0
    ensures forall i :: 0 <= i < |rs| ==> rs[i] == o.value[i].schema
  {
    if o.Some? then seq(|o.value|, i requires 0 <= i < |o.value| => o.value[i].schema) else []
  }

  function AdditionalRefs(o: Option<Additional>): seq<Ref> {
    if o.Some? && o.value.Sub? then [o.value.schema] else []
  }

  function ItemRefs(o: Option<Items>): seq<Ref> {
    if o.None? then [] else if o.value.Each? then [o.value.schema] else o.value.schemas
  }

  function NotRefs(o: Option<Ref>): seq<Ref> {
    if o.Some? then [o.value] else []
  }

  function DependencyRefs(ds: seq<Dependency>): seq<Ref> {
    if ds == [] then []
    else (if ds[0].OnSchema? then [ds[0].schema] else []) + DependencyRefs(ds[1..])
  }

  function Dependencies(n: SchemaNode): seq<Dependency> {
    if n.dependencies.Some? then n.dependencies.value else []
  }

  /** The subschemas that judge the same document. */
  function InPlace(n: SchemaNode): seq<Ref> {
    Refs(n.allOf) + Refs(n.anyOf) + Refs(n.oneOf) + NotRefs(n.negated) + DependencyRefs(Dependencies(n))
  }

  /** The subschemas that judge parts of the document. */
  function PartRefs(n: SchemaNode): seq<Ref> {
    EntryRefs(n.properties) + EntryRefs(n.patternProperties) + AdditionalRefs(n.additionalProperties)
    + ItemRefs(n.items) + AdditionalRefs(n.additionalItems)
  }

  /** References lead to nodes. */
  ghost predicate Closed(g: SchemaGraph) {
    forall r, c :: r in g && c in InPlace(g[r]) + PartRefs(g[r]) ==> c in g
  }

  /**
   * The graph may be cyclic, as expanded references make it, but each cycle goes through a part of the document:
   * subschemas that judge the same document go down in rank. Otherwise validation itself would not end.
   */
  ghost predicate Guarded(g: SchemaGraph, rank: map<Ref, nat>) {
    && (forall r :: r in g ==> r in rank)
    && Closed(g)
    && forall r, c :: r in g && c in InPlace(g[r]) ==> rank[c] < rank[r]
  }

  ghost predicate AllIn(g: SchemaGraph, rs: seq<Ref>) {
    forall i :: 0 <= i < |rs| ==> rs[i] in g
  }

  ghost predicate AllLower(rank: map<Ref, nat>, rs: seq<Ref>, bound: nat) {
    forall i :: 0 <= i < |rs| ==> rs[i] in rank && rank[rs[i]] < bound
  }

  lemma InPlaceKnown(g: SchemaGraph, rank: map<Ref, nat>, r: Ref)
    requires Guarded(g, rank) && r in g
    ensures AllIn(g, Refs(g[r].allOf)) && AllLower(rank, Refs(g[r].allOf), rank[r])
    ensures AllIn(g, Refs(g[r].anyOf)) && AllLower(rank, Refs(g[r].anyOf), rank[r])
    ensures AllIn(g, Refs(g[r].oneOf)) && AllLower(rank, Refs(g[r].oneOf), rank[r])
    ensures AllIn(g, NotRefs(g[r].negated)) && AllLower(rank, NotRefs(g[r].negated), rank[r])
    ensures AllIn(g, DependencyRefs(Dependencies(g[r]))) && AllLower(rank, DependencyRefs(Dependencies(g[r])), rank[r])
  {
    PartsKnown(g, rank, r, Refs(g[r].allOf));
    PartsKnown(g, rank, r, Refs(g[r].anyOf));
    PartsKnown(g, rank, r, Refs(g[r].oneOf));
    PartsKnown(g, rank, r, NotRefs(g[r].negated));
    PartsKnown(g, rank, r, DependencyRefs(Dependencies(g[r])));
  }

  lemma PartsKnown(g: SchemaGraph, rank: map<Ref, nat>, r: Ref, rs: seq<Ref>)
    requires Guarded(g, rank) && r in g && forall i :: 0 <= i < |rs| ==> rs[i] in InPlace(g[r])
    ensures AllIn(g, rs) && AllLower(rank, rs, rank[r])
  {
  }

  lemma BelowKnown(g: SchemaGraph, rank: map<Ref, nat>, r: Ref)
    requires Guarded(g, rank) && r in g
    ensures AllIn(g, EntryRefs(g[r].properties)) && AllIn(g, EntryRefs(g[r].patternProperties))
    ensures AllIn(g, AdditionalRefs(g[r].additionalProperties))
    ensures AllIn(g, ItemRefs(g[r].items)) && AllIn(g, AdditionalRefs(g[r].additionalItems))
  {
    var n := g[r];
    forall c | c in PartRefs(n)
      ensures c in g
    {
      assert c in InPlace(n) + PartRefs(n);
    }
    AreBelow(g, n, EntryRefs(n.properties));
    AreBelow(g, n, EntryRefs(n.patternProperties));
    AreBelow(g, n, AdditionalRefs(n.additionalProperties));
    AreBelow(g, n, ItemRefs(n.items));
    AreBelow(g, n, AdditionalRefs(n.additionalItems));
  }

  lemma AreBelow(g: SchemaGraph, n: SchemaNode, rs: seq<Ref>)
    requires forall c :: c in PartRefs(n) ==> c in g
    requires forall i :: 0 <= i < |rs| ==> rs[i] in PartRefs(n)
    ensures AllIn(g, rs)
  {
  }

  /** The documented condition on `additionalItems`: it stands beside `items`, or says nothing. */
  predicate ItemsRegular(n: SchemaNode) {
    || n.items.Some?
    || n.additionalItems.None?
    || n.additionalItems.value == Flag(true)
    || (n.additionalItems.value == Flag(false) && n.uniqueItems != Some(true)
        && (n.minItems.Some? ==> n.minItems.value <= 0) && (n.maxItems.Some? ==> n.maxItems.value >= INT_MAX))
  }

  /** No string of a permitted length holds a match of the pattern without being one. */
  ghost predicate PatternRegular(env: Env, n: SchemaNode) {
    n.pattern.Some? ==>
      forall s: Text :: |s| <= INT_MAX && AtLeast(n.minLength, CodePoints(s)) && AtMost(n.maxLength, CodePoints(s)) ==>
        (env.finds(n.pattern.value, s) <==> env.matches(n.pattern.value, s))
  }

  function TypeNames(t: Option<TypeKeyword>): seq<string> {
    match t
    case None => []
    case Some(One(name)) => [name]
    case Some(Several(names)) => names
  }

  predicate AsksIntegers(n: SchemaNode) {
    "integer" in TypeNames(n.types) && "number" !in TypeNames(n.types)
  }

  /** Where integers are asked for and other numbers are not, no number with a fraction or an exponent is whole. */
  ghost predicate TypeRegular(env: Env, n: SchemaNode) {
    AsksIntegers(n) ==> forall literal: Text :: !IsWhole(env.decimal(literal))
  }

  /** The keywords that draft 4 and `compile` read differently judge this value alike, its parts left aside. */
  predicate IsReadAlike(env: Env, n: SchemaNode, d: Json) {
    match d
    case Dec(literal) => AsksIntegers(n) ==> !IsWhole(env.decimal(literal))
    case Str(s) =>
      n.pattern.Some? && AtLeast(n.minLength, CodePoints(s)) && AtMost(n.maxLength, CodePoints(s)) ==>
        (env.finds(n.pattern.value, s) <==> env.matches(n.pattern.value, s))
    case Arr(_) => ItemsRegular(n)
    case _ => true
  }

  /** The same for a document with all its parts. */
  predicate IsRegular(env: Env, n: SchemaNode, d: Json)
    decreases d
  {
    && IsReadAlike(env, n, d)
    && match d
       case Arr(items) => forall i :: 0 <= i < |items| ==> IsRegular(env, n, items[i])
       case Obj(fields) => forall k :: k in fields ==> IsRegular(env, n, fields[k])
       case _ => true
  }

  /** A node that is regular in its items, its pattern and its types is so for every document. */
  lemma {:induction false} RegularForAll(env: Env, n: SchemaNode, d: Json)
    requires ItemsRegular(n) && PatternRegular(env, n) && TypeRegular(env, n) && Fits(d)
    ensures IsRegular(env, n, d)
    decreases d
  {
    hide CodePoints, AtLeast, AtMost, ItemsRegular;
    match d
    case Arr(items) =>
      forall i | 0 <= i < |items|
        ensures IsRegular(env, n, items[i])
      {
        RegularForAll(env, n, items[i]);
      }
    case Obj(fields) =>
      forall k | k in fields
        ensures IsRegular(env, n, fields[k])
      {
        RegularForAll(env, n, fields[k]);
      }
    case _ =>
  }

  // ---------------------------------------------------------------- the keywords, read one by one

  function TypeName(d: Json): string {
    match d
    case Str(_) => "string"
    case Obj(_) => "object"
    case Arr(_) => "array"
    case Int(_) => "number"
    case Dec(_) => "number"
    case Null => "null"
    case Bool(_) => "boolean"
  }

  predicate HasType(env: Env, d: Json, name: string) {
    name == TypeName(d) || (name == "integer" && IsNumber(d) && IsWhole(NumberValue(env, d)))
  }

  /** By draft 4 an integer is a number without a fraction and an exponent, as compiled it is one with a whole value. */
  predicate IsOfType(env: Env, d: Json, name: string) {
    if env.reading == ByKeyword && name == "integer" then d.Int? else HasType(env, d, name)
  }

  predicate TypeAllows(env: Env, t: Option<TypeKeyword>, d: Json) {
    match t
    case None => true
    case Some(One(name)) => name == "any" || IsOfType(env, d, name)
    case Some(Several(names)) => exists i :: 0 <= i < |names| && IsOfType(env, d, names[i])
  }

  predicate EnumAllows(env: Env, e: Option<seq<Json>>, d: Json) {
    e.Some? ==> exists i :: 0 <= i < |e.value| && Same(env, d, e.value[i])
  }

  predicate AtLeast(min: Option<int>, size: int) {
    min.Some? ==> size >= min.value
  }

  predicate AtMost(max: Option<int>, size: int) {
    max.Some? ==> size <= max.value
  }

  predicate NumberAllows(env: Env, n: SchemaNode, d: Json) {
    IsNumber(d) ==>
      var x := NumberValue(env, d);
      && (n.minimum.Some? ==> if n.exclusiveMinimum == Some(true) then x > n.minimum.value else x >= n.minimum.value)
      && (n.maximum.Some? ==> if n.exclusiveMaximum == Some(true) then x < n.maximum.value else x <= n.maximum.value)
      && (n.multipleOf.Some? ==> n.multipleOf.value != 0.0 && IsWhole(x / n.multipleOf.value))
  }

  /** By draft 4 a pattern is looked for anywhere in the string, as compiled it has to be the whole of it. */
  predicate Suits(env: Env, pattern: Text, s: Text) {
    if env.reading == ByKeyword then env.finds(pattern, s) else env.matches(pattern, s)
  }

  predicate StringAllows(env: Env, n: SchemaNode, d: Json) {
    d.Str? ==>
      && AtLeast(n.minLength, CodePoints(d.s)) && AtMost(n.maxLength, CodePoints(d.s))
      && (n.pattern.Some? ==> Suits(env, n.pattern.value, d.s))
  }

  predicate RequiredAllows(n: SchemaNode, d: Json) {
    d.Obj? && n.required.Some? ==> forall i :: 0 <= i < |n.required.value| ==> n.required.value[i] in d.fields
  }

  /** A field that neither `properties` nor `patternProperties` speaks of. */
  predicate IsExtra(env: Env, n: SchemaNode, k: Text) {
    && (n.properties.Some? ==> forall i :: 0 <= i < |n.properties.value| ==> n.properties.value[i].name != k)
    && (n.patternProperties.Some? ==>
          forall i :: 0 <= i < |n.patternProperties.value| ==> !env.finds(n.patternProperties.value[i].name, k))
  }

  predicate NoDuplicates(env: Env, items: seq<Json>) {
    forall i, j :: 0 <= i < j < |items| ==> !Same(env, items[i], items[j])
  }

  /** The document `d` satisfies the schema node `r`, keyword by keyword. */
  ghost predicate Accepts(env: Env, g: SchemaGraph, rank: map<Ref, nat>, r: Ref, d: Json)
    requires Guarded(g, rank) && r in g
    decreases d, rank[r], 3
  {
    var n := g[r];
    && TypeAllows(env, n.types, d)
    && EnumAllows(env, n.enumeration, d)
    && CombinedAllows(env, g, rank, r, d)
    && RequiredAllows(n, d)
    && (d.Obj? ==> ObjectAllows(env, g, rank, r, d))
    && (d.Arr? ==> ArrayAllows(env, g, rank, r, d))
    && NumberAllows(env, n, d)
    && StringAllows(env, n, d)
    && (d.Obj? ==> forall dep :: dep in Dependencies(n) ==> DependencyAllows(env, g, rank, r, d, dep))
  }

  ghost predicate CombinedAllows(env: Env, g: SchemaGraph, rank: map<Ref, nat>, r: Ref, d: Json)
    requires Guarded(g, rank) && r in g
    decreases d, rank[r], 1
  {
    var n := g[r];
    InPlaceKnown(g, rank, r);
    && (n.allOf.Some? ==> AllAccept(env, g, rank, rank[r], Refs(n.allOf), d))
    && (n.anyOf.Some? ==> SomeAccepts(env, g, rank, rank[r], Refs(n.anyOf), d))
    && (n.oneOf.Some? ==> OneAccepts(env, g, rank, rank[r], Refs(n.oneOf), d))
    && (n.negated.Some? ==> !AllAccept(env, g, rank, rank[r], NotRefs(n.negated), d))
  }

  ghost predicate AllAccept(env: Env, g: SchemaGraph, rank: map<Ref, nat>, bound: nat, rs: seq<Ref>, d: Json)
    requires Guarded(g, rank) && AllIn(g, rs) && AllLower(rank, rs, bound)
    decreases d, bound, 0
  {
    forall i :: 0 <= i < |rs| ==> Accepts(env, g, rank, rs[i], d)
  }

  ghost predicate SomeAccepts(env: Env, g: SchemaGraph, rank: map<Ref, nat>, bound: nat, rs: seq<Ref>, d: Json)
    requires Guarded(g, rank) && AllIn(g, rs) && AllLower(rank, rs, bound)
    decreases d, bound, 0
  {
    exists i :: 0 <= i < |rs| && Accepts(env, g, rank, rs[i], d)
  }

  ghost predicate OneAccepts(env: Env, g: SchemaGraph, rank: map<Ref, nat>, bound: nat, rs: seq<Ref>, d: Json)
    requires Guarded(g, rank) && AllIn(g, rs) && AllLower(rank, rs, bound)
    decreases d, bound, 0
  {
    exists i :: (
      && 0 <= i < |rs| && Accepts(env, g, rank, rs[i], d)
      && forall j :: 0 <= j < |rs| && j != i ==> !Accepts(env, g, rank, rs[j], d))
  }

  ghost predicate ObjectAllows(env: Env, g: SchemaGraph, rank: map<Ref, nat>, r: Ref, d: Json)
    requires Guarded(g, rank) && r in g && d.Obj?
    decreases d, rank[r], 1
  {
    && PropertiesAllow(env, g, rank, r, d)
    && PatternsAllow(env, g, rank, r, d)
    && ExtrasAllow(env, g, rank, r, d)
    && AtLeast(g[r].minProperties, |d.fields|) && AtMost(g[r].maxProperties, |d.fields|)
  }

  ghost predicate PropertiesAllow(env: Env, g: SchemaGraph, rank: map<Ref, nat>, r: Ref, d: Json)
    requires Guarded(g, rank) && r in g && d.Obj?
    decreases d, rank[r], 0
  {
    BelowKnown(g, rank, r);
    var entries, schemas := g[r].properties, EntryRefs(g[r].properties);
    forall i :: 0 <= i < |schemas| && entries.value[i].name in d.fields ==>
      Accepts(env, g, rank, schemas[i], d.fields[entries.value[i].name])
  }

  ghost predicate PatternsAllow(env: Env, g: SchemaGraph, rank: map<Ref, nat>, r: Ref, d: Json)
    requires Guarded(g, rank) && r in g && d.Obj?
    decreases d, rank[r], 0
  {
    BelowKnown(g, rank, r);
    var entries, schemas := g[r].patternProperties, EntryRefs(g[r].patternProperties);
    forall i, k :: 0 <= i < |schemas| && k in d.fields && env.finds(entries.value[i].name, k) ==>
      Accepts(env, g, rank, schemas[i], d.fields[k])
  }

  /** Only `additionalProperties` judges the extra fields. */
  ghost predicate ExtrasAllow(env: Env, g: SchemaGraph, rank: map<Ref, nat>, r: Ref, d: Json)
    requires Guarded(g, rank) && r in g && d.Obj?
    decreases d, rank[r], 0
  {
    BelowKnown(g, rank, r);
    var others := AdditionalRefs(g[r].additionalProperties);
    forall k :: k in d.fields && IsExtra(env, g[r], k) ==>
      && g[r].additionalProperties != Some(Flag(false))
      && (others != [] ==> Accepts(env, g, rank, others[0], d.fields[k]))
  }

  /**
   * The array keywords, by the reading. As compiled, and without `items`, `additionalItems` that is false lets every array
   * pass, and `additionalItems` that is a schema judges every element.
   */
  ghost predicate ArrayAllows(env: Env, g: SchemaGraph, rank: map<Ref, nat>, r: Ref, d: Json)
    requires Guarded(g, rank) && r in g && d.Arr?
    decreases d, rank[r], 2
  {
    var loose := env.reading == AsCompiled && g[r].items.None?;
    || (loose && g[r].additionalItems == Some(Flag(false)))
    || (ArrayByKeyword(env, g, rank, r, d) && (loose ==> LooseAllows(env, g, rank, r, d)))
  }

  ghost predicate LooseAllows(env: Env, g: SchemaGraph, rank: map<Ref, nat>, r: Ref, d: Json)
    requires Guarded(g, rank) && r in g && d.Arr?
    decreases d, rank[r], 0
  {
    BelowKnown(g, rank, r);
    var others := AdditionalRefs(g[r].additionalItems);
    others != [] ==> forall i :: 0 <= i < |d.items| ==> Accepts(env, g, rank, others[0], d.items[i])
  }

  /** The array keywords as they are documented. */
  ghost predicate ArrayByKeyword(env: Env, g: SchemaGraph, rank: map<Ref, nat>, r: Ref, d: Json)
    requires Guarded(g, rank) && r in g && d.Arr?
    decreases d, rank[r], 1
  {
    var n := g[r];
    && (n.items.Some? && n.items.value.Each? ==> EachAllows(env, g, rank, r, d))
    && (n.items.Some? && n.items.value.Tuple? ==> TupleAllows(env, g, rank, r, d))
    && (n.uniqueItems == Some(true) ==> NoDuplicates(env, d.items))
    && AtLeast(n.minItems, |d.items|) && AtMost(n.maxItems, |d.items|)
  }

  ghost predicate EachAllows(env: Env, g: SchemaGraph, rank: map<Ref, nat>, r: Ref, d: Json)
    requires Guarded(g, rank) && r in g && d.Arr? && g[r].items.Some? && g[r].items.value.Each?
    decreases d, rank[r], 0
  {
    BelowKnown(g, rank, r);
    forall i :: 0 <= i < |d.items| ==> Accepts(env, g, rank, ItemRefs(g[r].items)[0], d.items[i])
  }

  /** Elements within the tuple by their schema, those beyond it by `additionalItems`. */
  ghost predicate TupleAllows(env: Env, g: SchemaGraph, rank: map<Ref, nat>, r: Ref, d: Json)
    requires Guarded(g, rank) && r in g && d.Arr?
    decreases d, rank[r], 0
  {
    BelowKnown(g, rank, r);
    var schemas, others := ItemRefs(g[r].items), AdditionalRefs(g[r].additionalItems);
    && (forall i :: 0 <= i < |d.items| && i < |schemas| ==> schemas[i] in g && Accepts(env, g, rank, schemas[i], d.items[i]))
    && (g[r].additionalItems == Some(Flag(false)) ==> |d.items| <= |schemas|)
    && (others != [] ==> forall i :: |schemas| <= i < |d.items| ==> Accepts(env, g, rank, others[0], d.items[i]))
  }

  lemma {:induction false} DependencyRefsHold(ds: seq<Dependency>, dep: Dependency)
    requires dep in ds && dep.OnSchema?
    ensures dep.schema in DependencyRefs(ds)
  {
    if dep != ds[0] {
      DependencyRefsHold(ds[1..], dep);
    }
  }

  ghost predicate DependencyAllows(env: Env, g: SchemaGraph, rank: map<Ref, nat>, r: Ref, d: Json, dep: Dependency)
    requires Guarded(g, rank) && r in g && d.Obj? && dep in Dependencies(g[r])
    decreases d, rank[r], 0
  {
    dep.property in d.fields ==>
      match dep
      case OnSchema(_, c) =>
        DependencyRefsHold(Dependencies(g[r]), dep);
        InPlaceKnown(g, rank, r);
        Accepts(env, g, rank, c, d)
      case OnProperties(_, needed) => forall j :: 0 <= j < |needed| ==> needed[j] in d.fields
  }
}
