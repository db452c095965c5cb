/** The keywords of a schema written out one by one, and nothing else: what a document has to be for each of them. */
module SchemaKeywords {
  import opened Units
  import opened JsonValues
  import opened Schemas

  /** How a subschema judges a value. */
  type Judge = (Ref, Json) -> bool

  ghost function JudgeOf(env: Env, g: SchemaGraph, rank: map<Ref, nat>): Judge
    requires Guarded(g, rank)
  {
    (c: Ref, e: Json) => c in g && Accepts(env, g, rank, c, e)
  }

  // ---------------------------------------------------------------- any value

  /** The six names of the kinds of values, and `integer`. */
  predicate HasName(env: Env, d: Json, name: string) {
    || (name == "null" && d.Null?)
    || (name == "boolean" && d.Bool?)
    || (name == "string" && d.Str?)
    || (name == "number" && (d.Int? || d.Dec?))
    || (name == "array" && d.Arr?)
    || (name == "object" && d.Obj?)
    || (name == "integer" && d.Int?)
    || (name == "integer" && d.Dec? && env.reading == AsCompiled && env.decimal(d.literal).Floor as real == env.decimal(d.literal))
  }

  predicate TypeKeywordHolds(env: Env, t: Option<TypeKeyword>, d: Json) {
    match t
    case None => true
    case Some(One(name)) => name == "any" || HasName(env, d, name)
    case Some(Several(names)) => exists i :: 0 <= i < |names| && HasName(env, d, names[i])
  }

  /** The same value: numbers by what they are worth, objects in whatever order. */
  predicate IsEqual(env: Env, a: Json, b: Json)
    decreases a
  {
    match (a, b)
    case (Null, Null) => true
    case (Bool(x), Bool(y)) => x == y
    case (Str(s), Str(t)) => s == t
    case (Int(m), Int(n)) => m == n
    case (Int(m), Dec(y)) => m as real == env.decimal(y)
    case (Dec(x), Int(n)) => env.decimal(x) == n as real
    case (Dec(x), Dec(y)) => env.decimal(x) == env.decimal(y)
    case (Arr(xs), Arr(ys)) => |xs| == |ys| && forall i :: 0 <= i < |xs| ==> IsEqual(env, xs[i], ys[i])
    case (Obj(fs), Obj(gs)) => fs.Keys == gs.Keys && forall k :: k in fs ==> IsEqual(env, fs[k], gs[k])
    case _ => false
  }

  lemma {:induction false} SameIsEqual(env: Env, a: Json, b: Json)
    ensures Same(env, a, b) <==> IsEqual(env, a, b)
    decreases a
  {
    match a
    case Arr(items) =>
      if b.Arr? && |b.items| == |items| {
        forall i | 0 <= i < |items|
          ensures Same(env, items[i], b.items[i]) <==> IsEqual(env, items[i], b.items[i])
        {
          SameIsEqual(env, items[i], b.items[i]);
        }
      }
    case Obj(fields) =>
      if b.Obj? && b.fields.Keys == fields.Keys {
        forall k | k in fields
          ensures Same(env, fields[k], b.fields[k]) <==> IsEqual(env, fields[k], b.fields[k])
        {
          SameIsEqual(env, fields[k], b.fields[k]);
        }
      }
    case _ =>
  }

  ghost predicate CombinedHolds(n: SchemaNode, judge: Judge, d: Json) {
    && (n.allOf.Some? ==> forall i :: 0 <= i < |n.allOf.value| ==> judge(n.allOf.value[i], d))
    && (n.anyOf.Some? ==> exists i :: 0 <= i < |n.anyOf.value| && judge(n.anyOf.value[i], d))
    && (n.oneOf.Some? ==> exists i :: (
          && 0 <= i < |n.oneOf.value| && judge(n.oneOf.value[i], d)
          && forall j :: 0 <= j < |n.oneOf.value| && j != i ==> !judge(n.oneOf.value[j], d)))
    && (n.negated.Some? ==> !judge(n.negated.value, d))
  }

  /** The keywords that judge a value of any kind. */
  ghost predicate GeneralHolds(env: Env, n: SchemaNode, judge: Judge, d: Json) {
    && TypeKeywordHolds(env, n.types, d)
    && (n.enumeration.Some? ==> exists i :: 0 <= i < |n.enumeration.value| && IsEqual(env, d, n.enumeration.value[i]))
    && CombinedHolds(n, judge, d)
  }

  // ---------------------------------------------------------------- numbers and strings

  predicate NumberHolds(env: Env, n: SchemaNode, d: Json) {
    d.Int? || d.Dec? ==>
      var x := if d.Int? then d.n as real else env.decimal(d.literal);
      && (n.minimum.Some? ==> x >= n.minimum.value)
      && (n.minimum.Some? && n.exclusiveMinimum == Some(true) ==> x != n.minimum.value)
      && (n.maximum.Some? ==> x <= n.maximum.value)
      && (n.maximum.Some? && n.exclusiveMaximum == Some(true) ==> x != n.maximum.value)
      && (n.multipleOf.Some? ==>
            n.multipleOf.value != 0.0 && (x / n.multipleOf.value).Floor as real == x / n.multipleOf.value)
  }

  /** The surrogate pairs of a text, from left to right. */
  function Pairs(s: Text): nat {
    if |s| < 2 then 0
    else if 0xD800 <= s[0] < 0xDC00 && 0xDC00 <= s[1] < 0xE000 then 1 + Pairs(s[2..])
    else Pairs(s[1..])
  }

  lemma {:induction false} CodePointsAre(s: Text)
    ensures CodePoints(s) == |s| - Pairs(s)
    decreases |s|
  {
    if |s| >= 2 {
      if 0xD800 <= s[0] < 0xDC00 && 0xDC00 <= s[1] < 0xE000 {
        CodePointsAre(s[2..]);
      } else {
        CodePointsAre(s[1..]);
      }
    } else if |s| == 1 {
      assert s[1..] == [];
    }
  }

  predicate StringHolds(env: Env, n: SchemaNode, d: Json) {
    d.Str? ==>
      && (n.minLength.Some? ==> n.minLength.value <= |d.s| - Pairs(d.s))
      && (n.maxLength.Some? ==> |d.s| - Pairs(d.s) <= n.maxLength.value)
      && (n.pattern.Some? ==> if env.reading == ByKeyword then env.finds(n.pattern.value, d.s) else env.matches(n.pattern.value, d.s))
  }

  // ---------------------------------------------------------------- objects

  /** A field that no property has the name of, and no pattern is found in the name of. */
  predicate IsAdditional(env: Env, n: SchemaNode, k: Text) {
    && (n.properties.Some? ==> forall i :: 0 <= i < |n.properties.value| ==> k != n.properties.value[i].name)
    && (n.patternProperties.Some? ==>
          forall i :: 0 <= i < |n.patternProperties.value| ==> !env.finds(n.patternProperties.value[i].name, k))
  }

  ghost predicate PropertiesHold(n: SchemaNode, judge: Judge, fields: map<Text, Json>) {
    n.properties.Some? ==>
      forall i :: 0 <= i < |n.properties.value| && n.properties.value[i].name in fields ==>
        judge(n.properties.value[i].schema, fields[n.properties.value[i].name])
  }

  ghost predicate PatternsHold(env: Env, n: SchemaNode, judge: Judge, fields: map<Text, Json>) {
    n.patternProperties.Some? ==>
      forall i, k :: 0 <= i < |n.patternProperties.value| && k in fields && env.finds(n.patternProperties.value[i].name, k) ==>
        judge(n.patternProperties.value[i].schema, fields[k])
  }

  ghost predicate AdditionalHolds(env: Env, n: SchemaNode, judge: Judge, fields: map<Text, Json>) {
    match n.additionalProperties
    case None => true
    case Some(Flag(allowed)) => allowed || forall k :: k in fields ==> !IsAdditional(env, n, k)
    case Some(Sub(c)) => forall k :: k in fields && IsAdditional(env, n, k) ==> judge(c, fields[k])
  }

  ghost predicate ObjectHolds(env: Env, n: SchemaNode, judge: Judge, fields: map<Text, Json>) {
    && (n.required.Some? ==> forall i :: 0 <= i < |n.required.value| ==> n.required.value[i] in fields)
    && PropertiesHold(n, judge, fields) && PatternsHold(env, n, judge, fields) && AdditionalHolds(env, n, judge, fields)
    && (n.minProperties.Some? ==> n.minProperties.value <= |fields|)
    && (n.maxProperties.Some? ==> |fields| <= n.maxProperties.value)
  }

  ghost predicate DependenciesHold(n: SchemaNode, judge: Judge, d: Json) {
    d.Obj? && n.dependencies.Some? ==>
      forall i :: 0 <= i < |n.dependencies.value| && n.dependencies.value[i].property in d.fields ==>
        match n.dependencies.value[i]
        case OnSchema(_, c) => judge(c, d)
        case OnProperties(_, needed) => forall j :: 0 <= j < |needed| ==> needed[j] in d.fields
  }

  // ---------------------------------------------------------------- arrays

  /** The elements within the list of schemas, and those behind it. */
  ghost predicate TupleHolds(n: SchemaNode, judge: Judge, cs: seq<Ref>, items: seq<Json>) {
    && (forall i :: 0 <= i < |items| && i < |cs| ==> judge(cs[i], items[i]))
    && match n.additionalItems
       case None => true
       case Some(Flag(allowed)) => allowed || |items| <= |cs|
       case Some(Sub(c)) => forall i :: |cs| <= i < |items| ==> judge(c, items[i])
  }

  ghost predicate ItemsHold(n: SchemaNode, judge: Judge, items: seq<Json>) {
    match n.items
    case None => true
    case Some(Each(c)) => forall i :: 0 <= i < |items| ==> judge(c, items[i])
    case Some(Tuple(cs)) => TupleHolds(n, judge, cs, items)
  }

  ghost predicate ListHolds(env: Env, n: SchemaNode, judge: Judge, items: seq<Json>) {
    && ItemsHold(n, judge, items)
    && (n.uniqueItems == Some(true) ==> forall i, j :: 0 <= i < j < |items| ==> !IsEqual(env, items[i], items[j]))
    && (n.minItems.Some? ==> n.minItems.value <= |items|)
    && (n.maxItems.Some? ==> |items| <= n.maxItems.value)
  }

  /** As compiled, `additionalItems` is heard without `items` as well: false lets everything pass, a schema judges every element. */
  ghost predicate ArrayHolds(env: Env, n: SchemaNode, judge: Judge, items: seq<Json>) {
    if env.reading == AsCompiled && n.items.None? && n.additionalItems == Some(Flag(false)) then true
    else
      && ListHolds(env, n, judge, items)
      && (env.reading == AsCompiled && n.items.None? && n.additionalItems.Some? && n.additionalItems.value.Sub? ==>
            forall i :: 0 <= i < |items| ==> judge(n.additionalItems.value.schema, items[i]))
  }

  // ---------------------------------------------------------------- all of them

  ghost predicate KeywordsHold(env: Env, n: SchemaNode, judge: Judge, d: Json) {
    && GeneralHolds(env, n, judge, d)
    && NumberHolds(env, n, d)
    && StringHolds(env, n, d)
    && (d.Obj? ==> ObjectHolds(env, n, judge, d.fields))
    && DependenciesHold(n, judge, d)
    && (d.Arr? ==> ArrayHolds(env, n, judge, d.items))
  }

  lemma TypesAre(env: Env, t: Option<TypeKeyword>, d: Json)
    ensures TypeAllows(env, t, d) <==> TypeKeywordHolds(env, t, d)
  {
    forall name
      ensures IsOfType(env, d, name) <==> HasName(env, d, name)
    {
      assert |"null"| == 4 && |"boolean"| == 7 && |"string"| == 6 && |"number"| == 6 && |"array"| == 5 && |"object"| == 6
        && |"integer"| == 7 && "boolean"[0] == 'b' && "string"[0] == 's' && "number"[0] == 'n' && "object"[0] == 'o';
    }
    hide IsOfType, HasName;
  }

  lemma Judged(env: Env, g: SchemaGraph, rank: map<Ref, nat>, c: Ref, e: Json)
    requires Guarded(g, rank) && c in g
    ensures JudgeOf(env, g, rank)(c, e) <==> Accepts(env, g, rank, c, e)
  {
    hide Accepts, Guarded;
  }

  /** All of some subschemas, some of them, and exactly one of them. */
  lemma ListJudged(env: Env, g: SchemaGraph, rank: map<Ref, nat>, bound: nat, rs: seq<Ref>, d: Json)
    requires Guarded(g, rank) && AllIn(g, rs) && AllLower(rank, rs, bound)
    ensures var judge := JudgeOf(env, g, rank);
            && (AllAccept(env, g, rank, bound, rs, d) <==> forall i :: 0 <= i < |rs| ==> judge(rs[i], d))
            && (SomeAccepts(env, g, rank, bound, rs, d) <==> exists i :: 0 <= i < |rs| && judge(rs[i], d))
            && (OneAccepts(env, g, rank, bound, rs, d) <==> exists i :: (
                  0 <= i < |rs| && judge(rs[i], d) && forall j :: 0 <= j < |rs| && j != i ==> !judge(rs[j], d)))
  {
    hide Accepts, Guarded;
    forall i | 0 <= i < |rs|
      ensures JudgeOf(env, g, rank)(rs[i], d) <==> Accepts(env, g, rank, rs[i], d)
    {
      Judged(env, g, rank, rs[i], d);
    }
    hide JudgeOf;
  }

  lemma CombinedParts(env: Env, g: SchemaGraph, rank: map<Ref, nat>, r: Ref, d: Json)
    requires Guarded(g, rank) && r in g
    requires AllIn(g, Refs(g[r].allOf)) && AllLower(rank, Refs(g[r].allOf), rank[r])
    requires AllIn(g, Refs(g[r].anyOf)) && AllLower(rank, Refs(g[r].anyOf), rank[r])
    requires AllIn(g, Refs(g[r].oneOf)) && AllLower(rank, Refs(g[r].oneOf), rank[r])
    requires AllIn(g, NotRefs(g[r].negated)) && AllLower(rank, NotRefs(g[r].negated), rank[r])
    ensures r in rank
    ensures CombinedAllows(env, g, rank, r, d) <==>
            var n := g[r];
            && (n.allOf.Some? ==> AllAccept(env, g, rank, rank[r], Refs(n.allOf), d))
            && (n.anyOf.Some? ==> SomeAccepts(env, g, rank, rank[r], Refs(n.anyOf), d))
            && (n.oneOf.Some? ==> OneAccepts(env, g, rank, rank[r], Refs(n.oneOf), d))
            && (n.negated.Some? ==> !AllAccept(env, g, rank, rank[r], NotRefs(n.negated), d))
  {
    assert r in rank;
    hide Guarded, AllAccept, SomeAccepts, OneAccepts, AllIn, AllLower, Refs, NotRefs, DependencyRefs, Dependencies, Accepts;
  }

  lemma CombinedAre(env: Env, g: SchemaGraph, rank: map<Ref, nat>, r: Ref, d: Json)
    requires Guarded(g, rank) && r in g
    ensures CombinedHolds(g[r], JudgeOf(env, g, rank), d) <==> CombinedAllows(env, g, rank, r, d)
  {
    hide Guarded, AllAccept, SomeAccepts, OneAccepts, JudgeOf, AllIn, AllLower, DependencyRefs, Dependencies, Accepts;
    hide CombinedAllows;
    var n := g[r];
    InPlaceKnown(g, rank, r);
    CombinedParts(env, g, rank, r, d);
    ListJudged(env, g, rank, rank[r], Refs(n.allOf), d);
    ListJudged(env, g, rank, rank[r], Refs(n.anyOf), d);
    ListJudged(env, g, rank, rank[r], Refs(n.oneOf), d);
    ListJudged(env, g, rank, rank[r], NotRefs(n.negated), d);
    assert n.negated.Some? ==> NotRefs(n.negated)[0] == n.negated.value;
  }

  lemma GeneralIs(env: Env, g: SchemaGraph, rank: map<Ref, nat>, r: Ref, d: Json)
    requires Guarded(g, rank) && r in g
    ensures GeneralHolds(env, g[r], JudgeOf(env, g, rank), d) <==>
            TypeAllows(env, g[r].types, d) && EnumAllows(env, g[r].enumeration, d) && CombinedAllows(env, g, rank, r, d)
  {
    TypesAre(env, g[r].types, d);
    forall e: Json
      ensures Same(env, d, e) <==> IsEqual(env, d, e)
    {
      SameIsEqual(env, d, e);
    }
    CombinedAre(env, g, rank, r, d);
    hide Same, IsEqual, TypeAllows, TypeKeywordHolds, Guarded, CombinedHolds, CombinedAllows;
  }

  lemma PropertiesAre(env: Env, g: SchemaGraph, rank: map<Ref, nat>, r: Ref, d: Json)
    requires Guarded(g, rank) && r in g && d.Obj?
    ensures PropertiesHold(g[r], JudgeOf(env, g, rank), d.fields) <==> PropertiesAllow(env, g, rank, r, d)
  {
    BelowKnown(g, rank, r);
    hide Accepts, Guarded;
    var entries, schemas := g[r].properties, EntryRefs(g[r].properties);
    forall i | 0 <= i < |schemas| && entries.value[i].name in d.fields
      ensures JudgeOf(env, g, rank)(schemas[i], d.fields[entries.value[i].name])
              <==> Accepts(env, g, rank, schemas[i], d.fields[entries.value[i].name])
    {
      Judged(env, g, rank, schemas[i], d.fields[entries.value[i].name]);
    }
    hide JudgeOf;
  }

  lemma PatternsAre(env: Env, g: SchemaGraph, rank: map<Ref, nat>, r: Ref, d: Json)
    requires Guarded(g, rank) && r in g && d.Obj?
    ensures PatternsHold(env, g[r], JudgeOf(env, g, rank), d.fields) <==> PatternsAllow(env, g, rank, r, d)
  {
    BelowKnown(g, rank, r);
    hide Accepts, Guarded;
    var schemas := EntryRefs(g[r].patternProperties);
    forall i, k | 0 <= i < |schemas| && k in d.fields
      ensures JudgeOf(env, g, rank)(schemas[i], d.fields[k]) <==> Accepts(env, g, rank, schemas[i], d.fields[k])
    {
      Judged(env, g, rank, schemas[i], d.fields[k]);
    }
    hide JudgeOf;
  }

  lemma SchemaOfOthers(g: SchemaGraph, rank: map<Ref, nat>, r: Ref)
    requires Guarded(g, rank) && r in g && g[r].additionalProperties.Some? && g[r].additionalProperties.value.Sub?
    ensures var c := g[r].additionalProperties.value.schema; AdditionalRefs(g[r].additionalProperties) == [c] && c in g
  {
    BelowKnown(g, rank, r);
    assert AdditionalRefs(g[r].additionalProperties)[0] in g;
  }

  lemma ExtraIs(env: Env, n: SchemaNode, k: Text)
    ensures IsAdditional(env, n, k) <==> IsExtra(env, n, k)
  {
  }

  lemma AdditionalAre(env: Env, g: SchemaGraph, rank: map<Ref, nat>, r: Ref, d: Json)
    requires Guarded(g, rank) && r in g && d.Obj?
    ensures AdditionalHolds(env, g[r], JudgeOf(env, g, rank), d.fields) <==> ExtrasAllow(env, g, rank, r, d)
  {
    hide Accepts, JudgeOf, Guarded, IsAdditional, IsExtra;
    var n := g[r];
    forall k
      ensures IsAdditional(env, n, k) <==> IsExtra(env, n, k)
    {
      ExtraIs(env, n, k);
    }
    if n.additionalProperties.Some? && n.additionalProperties.value.Sub? {
      SchemaOfOthers(g, rank, r);
      var c := n.additionalProperties.value.schema;
      forall k | k in d.fields
        ensures JudgeOf(env, g, rank)(c, d.fields[k]) <==> Accepts(env, g, rank, c, d.fields[k])
      {
        Judged(env, g, rank, c, d.fields[k]);
      }
    }
  }

  lemma ObjectIs(env: Env, g: SchemaGraph, rank: map<Ref, nat>, r: Ref, d: Json)
    requires Guarded(g, rank) && r in g && d.Obj?
    ensures ObjectHolds(env, g[r], JudgeOf(env, g, rank), d.fields) <==>
            RequiredAllows(g[r], d) && ObjectAllows(env, g, rank, r, d)
  {
    PropertiesAre(env, g, rank, r, d);
    PatternsAre(env, g, rank, r, d);
    AdditionalAre(env, g, rank, r, d);
    hide Guarded, PropertiesHold, PatternsHold, AdditionalHolds, PropertiesAllow, PatternsAllow, ExtrasAllow, JudgeOf;
  }

  lemma DependenciesAre(env: Env, g: SchemaGraph, rank: map<Ref, nat>, r: Ref, d: Json)
    requires Guarded(g, rank) && r in g && d.Obj?
    ensures DependenciesHold(g[r], JudgeOf(env, g, rank), d) <==>
            forall dep :: dep in Dependencies(g[r]) ==> DependencyAllows(env, g, rank, r, d, dep)
  {
    var ds, judge := Dependencies(g[r]), JudgeOf(env, g, rank);
    InPlaceKnown(g, rank, r);
    forall dep | dep in ds
      ensures DependencyAllows(env, g, rank, r, d, dep) <==>
              (dep.property in d.fields ==>
                 match dep
                 case OnSchema(_, c) => judge(c, d)
                 case OnProperties(_, needed) => forall j :: 0 <= j < |needed| ==> needed[j] in d.fields)
    {
      if dep.OnSchema? {
        DependencyRefsHold(ds, dep);
      }
    }
    hide Accepts, Guarded, DependencyAllows;
    assert g[r].dependencies.Some? ==> ds == g[r].dependencies.value;
  }

  lemma ElementsJudged(env: Env, g: SchemaGraph, rank: map<Ref, nat>, c: Ref, items: seq<Json>)
    requires Guarded(g, rank) && c in g
    ensures forall i :: 0 <= i < |items| ==> (JudgeOf(env, g, rank)(c, items[i]) <==> Accepts(env, g, rank, c, items[i]))
  {
    hide Accepts, Guarded;
    forall i | 0 <= i < |items|
      ensures JudgeOf(env, g, rank)(c, items[i]) <==> Accepts(env, g, rank, c, items[i])
    {
      Judged(env, g, rank, c, items[i]);
    }
  }

  lemma ArrayIs(env: Env, g: SchemaGraph, rank: map<Ref, nat>, r: Ref, d: Json)
    requires Guarded(g, rank) && r in g && d.Arr?
    ensures ArrayHolds(env, g[r], JudgeOf(env, g, rank), d.items) <==> ArrayAllows(env, g, rank, r, d)
  {
    var n := g[r];
    BelowKnown(g, rank, r);
    ListIs(env, g, rank, r, d);
    hide Accepts, Guarded, ListHolds, ArrayByKeyword;
    if n.additionalItems.Some? && n.additionalItems.value.Sub? {
      assert AdditionalRefs(n.additionalItems) == [n.additionalItems.value.schema];
      ElementsJudged(env, g, rank, n.additionalItems.value.schema, d.items);
    }
    hide JudgeOf;
  }

  lemma TupleIs(env: Env, g: SchemaGraph, rank: map<Ref, nat>, r: Ref, d: Json)
    requires Guarded(g, rank) && r in g && d.Arr? && g[r].items.Some? && g[r].items.value.Tuple?
    ensures TupleHolds(g[r], JudgeOf(env, g, rank), g[r].items.value.schemas, d.items) <==> TupleAllows(env, g, rank, r, d)
  {
    hide JudgeOf, Accepts, Guarded;
    var n, cs := g[r], g[r].items.value.schemas;
    BelowKnown(g, rank, r);
    TupleJudged(env, g, rank, cs, d.items);
    if n.additionalItems.Some? && n.additionalItems.value.Sub? {
      assert AdditionalRefs(n.additionalItems)[0] == n.additionalItems.value.schema;
      ElementsJudged(env, g, rank, n.additionalItems.value.schema, d.items);
    }
  }

  lemma TupleJudged(env: Env, g: SchemaGraph, rank: map<Ref, nat>, cs: seq<Ref>, items: seq<Json>)
    requires Guarded(g, rank) && AllIn(g, cs)
    ensures forall i :: 0 <= i < |items| && i < |cs| ==>
              cs[i] in g && (JudgeOf(env, g, rank)(cs[i], items[i]) <==> Accepts(env, g, rank, cs[i], items[i]))
  {
    hide Accepts, Guarded;
    forall i | 0 <= i < |items| && i < |cs|
      ensures cs[i] in g && (JudgeOf(env, g, rank)(cs[i], items[i]) <==> Accepts(env, g, rank, cs[i], items[i]))
    {
      Judged(env, g, rank, cs[i], items[i]);
    }
  }

  lemma NoneAlike(env: Env, items: seq<Json>)
    ensures NoDuplicates(env, items) <==> forall i, j :: 0 <= i < j < |items| ==> !IsEqual(env, items[i], items[j])
  {
    hide Same, IsEqual;
    forall i, j | 0 <= i < j < |items|
      ensures Same(env, items[i], items[j]) <==> IsEqual(env, items[i], items[j])
    {
      SameIsEqual(env, items[i], items[j]);
    }
  }

  lemma EachIs(env: Env, g: SchemaGraph, rank: map<Ref, nat>, r: Ref, d: Json)
    requires Guarded(g, rank) && r in g && d.Arr? && g[r].items.Some? && g[r].items.value.Each?
    ensures (forall i :: 0 <= i < |d.items| ==> JudgeOf(env, g, rank)(g[r].items.value.schema, d.items[i]))
            <==> EachAllows(env, g, rank, r, d)
  {
    hide JudgeOf, Accepts;
    BelowKnown(g, rank, r);
    assert ItemRefs(g[r].items) == [g[r].items.value.schema];
    assert ItemRefs(g[r].items)[0] in g;
    hide Guarded;
    ElementsJudged(env, g, rank, g[r].items.value.schema, d.items);
  }

  lemma ListIs(env: Env, g: SchemaGraph, rank: map<Ref, nat>, r: Ref, d: Json)
    requires Guarded(g, rank) && r in g && d.Arr?
    ensures ListHolds(env, g[r], JudgeOf(env, g, rank), d.items) <==> ArrayByKeyword(env, g, rank, r, d)
  {
    hide Accepts, IsEqual, NoDuplicates, TupleHolds, TupleAllows, EachAllows, JudgeOf, Guarded;
    var n := g[r];
    NoneAlike(env, d.items);
    if n.items.Some? && n.items.value.Tuple? {
      TupleIs(env, g, rank, r, d);
    } else if n.items.Some? {
      EachIs(env, g, rank, r, d);
    }
  }

  lemma StringIs(env: Env, n: SchemaNode, d: Json)
    ensures StringHolds(env, n, d) <==> StringAllows(env, n, d)
  {
    if d.Str? {
      CodePointsAre(d.s);
    }
    hide CodePoints, Pairs;
  }

  lemma NumberIs(env: Env, n: SchemaNode, d: Json)
    ensures NumberHolds(env, n, d) <==> NumberAllows(env, n, d)
  {
  }

  /** A document is accepted exactly if every keyword of the node holds, its subschemas judging in the same way. */
  lemma AcceptsIffKeywordsHold(env: Env, g: SchemaGraph, rank: map<Ref, nat>, r: Ref, d: Json)
    requires Guarded(g, rank) && r in g
    ensures Accepts(env, g, rank, r, d) <==> KeywordsHold(env, g[r], JudgeOf(env, g, rank), d)
  {
    GeneralIs(env, g, rank, r, d);
    StringIs(env, g[r], d);
    NumberIs(env, g[r], d);
    if d.Obj? {
      ObjectIs(env, g, rank, r, d);
      DependenciesAre(env, g, rank, r, d);
    }
    if d.Arr? {
      ArrayIs(env, g, rank, r, d);
    }
    hide Guarded, GeneralHolds, ObjectHolds, ArrayHolds, TypeAllows, EnumAllows, CombinedAllows, ObjectAllows, JudgeOf,
      ArrayAllows, DependencyAllows, StringHolds, StringAllows, NumberHolds, NumberAllows, RequiredAllows;
    AcceptsParts(env, g, rank, r, d);
  }

  lemma AcceptsParts(env: Env, g: SchemaGraph, rank: map<Ref, nat>, r: Ref, d: Json)
    requires Guarded(g, rank) && r in g
    ensures Accepts(env, g, rank, r, d) <==>
            var n := g[r];
            && TypeAllows(env, n.types, d) && EnumAllows(env, n.enumeration, d) && CombinedAllows(env, g, rank, r, d)
            && RequiredAllows(n, d)
            && (d.Obj? ==> ObjectAllows(env, g, rank, r, d)) && (d.Arr? ==> ArrayAllows(env, g, rank, r, d))
            && NumberAllows(env, n, d) && StringAllows(env, n, d)
            && (d.Obj? ==> forall dep :: dep in Dependencies(n) ==> DependencyAllows(env, g, rank, r, d, dep))
  {
    hide Guarded, TypeAllows, EnumAllows, CombinedAllows, ObjectAllows, ArrayAllows, DependencyAllows, StringAllows, NumberAllows,
      RequiredAllows, Dependencies;
  }
}
