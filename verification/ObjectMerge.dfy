/** `ObjectJson.withOptions`: merging objects under options given by path. */
module ObjectMerges {
  import opened Units
  import opened JsonValues
  import opened ReaderSpec
  import opened Schemas
  import opened ArrayMerges

  // ---------------------------------------------------------------- the table of options

  type Options = map<Text, PathOptions>

  const NO_OPTIONS := PathOptions(false, false, false, Null)

  const MERGE: Text := [0x6D, 0x65, 0x72, 0x67, 0x65]
  const DUP: Text := [0x64, 0x75, 0x70]
  const SORT: Text := [0x73, 0x6F, 0x72, 0x74]
  const COMPARE_BY: Text := [0x63, 0x6F, 0x6D, 0x70, 0x61, 0x72, 0x65, 0x42, 0x79]
  const FOR: Text := [0x66, 0x6F, 0x72]

  function At(opts: Options, path: Text): PathOptions {
    if path in opts then opts[path] else NO_OPTIONS
  }

  predicate IsTrue(fields: map<Text, Json>, name: Text) {
    name in fields && fields[name] == Bool(true)
  }

  /** What an option object says of each path it is for. */
  function FlagsOf(fields: map<Text, Json>): PathOptions {
    PathOptions(IsTrue(fields, MERGE), IsTrue(fields, DUP), IsTrue(fields, SORT),
                if COMPARE_BY in fields then fields[COMPARE_BY] else Null)
  }

  function PathsOf(fields: map<Text, Json>): seq<Json> {
    if FOR !in fields then [Str([])]
    else if fields[FOR].Arr? then fields[FOR].items else [fields[FOR]]
  }

  /** An option given by its name alone: it is set to true at the root. */
  function Switched(o: PathOptions, name: Text): PathOptions {
    if name == MERGE then o.(merge := true)
    else if name == DUP then o.(dup := true)
    else if name == SORT then o.(sort := true)
    else if name == COMPARE_BY then o.(compareBy := Bool(true))
    else o
  }

  function ForPaths(table: Options, paths: seq<Json>, o: PathOptions): Result<Options> {
    if paths == [] then Ok(table)
    else
      var before :- ForPaths(table, paths[..|paths| - 1], o);
      var path :- AsKey(paths[|paths| - 1]);
      Ok(before[path := o])
  }

  function Added(table: Options, option: Json): Result<Options> {
    match option
    case Str(name) => Ok(table[[] := Switched(At(table, []), name)])
    case Obj(fields) => ForPaths(table, PathsOf(fields), FlagsOf(fields))
    case _ => Err(Unsupported)
  }

  function Collected(options: seq<Json>): Result<Options> {
    if options == [] then Ok(map[])
    else
      var table :- Collected(options[..|options| - 1]);
      Added(table, options[|options| - 1])
  }

  method CollectWithOptions(options: seq<Json>) returns (r: Result<Options>)
    ensures r == Collected(options)
  {
    var table: Options := map[];
    for i := 0 to |options|
      invariant Collected(options[..i]) == Ok(table)
      invariant forall j :: i < j <= |options| && Collected(options[..i]).Err? ==> Collected(options[..j]).Err?
    {
      assert options[..i + 1][..i] == options[..i];
      var next := Added(table, options[i]);
      if next.Err? {
        OptionsStayFailed(options, i + 1);
        return next;
      }
      table := next.value;
    }
    assert options[..|options|] == options;
    return Ok(table);
  }

  lemma {:induction false} OptionsStayFailed(options: seq<Json>, i: nat)
    requires i <= |options| && Collected(options[..i]).Err?
    ensures Collected(options) == Collected(options[..i])
    decreases |options| - i
  {
    if i == |options| {
      assert options[..i] == options;
    } else {
      assert options[..i + 1][..i] == options[..i];
      OptionsStayFailed(options, i + 1);
    }
  }

  /** Whether an option touches what the table holds for `path`. */
  predicate Touches(option: Json, path: Text) {
    || (option.Str? && path == [])
    || (option.Obj? && exists i :: 0 <= i < |PathsOf(option.fields)| && AsKey(PathsOf(option.fields)[i]) == Ok(path))
  }

  lemma {:induction false} ForPathsSets(table: Options, paths: seq<Json>, o: PathOptions, path: Text)
    requires ForPaths(table, paths, o).Ok?
    ensures At(ForPaths(table, paths, o).value, path) ==
            if exists i :: 0 <= i < |paths| && AsKey(paths[i]) == Ok(path) then o else At(table, path)
  {
    if paths != [] {
      var n := |paths| - 1;
      ForPathsSets(table, paths[..n], o, path);
      if i :| 0 <= i < |paths| && AsKey(paths[i]) == Ok(path) {
        assert i < n ==> paths[..n][i] == paths[i];
      }
    }
  }

  /** The last object that names a path decides all its options; a later option that does not touch the path changes nothing. */
  lemma {:induction false} LastOptionDecides(options: seq<Json>, k: nat, path: Text)
    requires Collected(options).Ok? && k < |options| && options[k].Obj? && Touches(options[k], path)
    requires forall j :: k < j < |options| ==> !Touches(options[j], path)
    ensures At(Collected(options).value, path) == FlagsOf(options[k].fields)
  {
    var n := |options| - 1;
    var last := options[n];
    if last.Obj? {
      ForPathsSets(Collected(options[..n]).value, PathsOf(last.fields), FlagsOf(last.fields), path);
    }
    if k < n {
      assert forall j :: k < j < n ==> options[..n][j] == options[j];
      LastOptionDecides(options[..n], k, path);
    }
  }

  // ---------------------------------------------------------------- merging objects

  function PathBelow(path: Text, key: Text): Text {
    path + [SLASH] + key
  }

  /** No part of the merge ends in an exception: kinds agree where both sides have something to merge. */
  predicate Mergeable(env: Env, opts: Options, path: Text, l: Json, r: Json)
    decreases r
  {
    && l.Obj? && r.Obj?
    && (At(opts, path).merge ==>
          forall k :: k in r.fields && k in l.fields ==>
            && (l.fields[k].Obj? ==> Mergeable(env, opts, PathBelow(path, k), l.fields[k], r.fields[k]))
            && (l.fields[k].Arr? ==>
                  && r.fields[k].Arr?
                  && ArrayWith(env, l.fields[k].items, r.fields[k].items, At(opts, PathBelow(path, k))).1.Ok?))
  }

  /** The object `l` after `r` is merged into it. */
  function Merge(env: Env, opts: Options, path: Text, l: Json, r: Json): (m: Json)
    requires Mergeable(env, opts, path, l, r)
    ensures m.Obj?
    decreases r, 1
  {
    Obj(map k | k in l.fields.Keys + r.fields.Keys :: MergedField(env, opts, path, l, r, k))
  }

  function MergedField(env: Env, opts: Options, path: Text, l: Json, r: Json, k: Text): Json
    requires Mergeable(env, opts, path, l, r) && (k in l.fields || k in r.fields)
    decreases r, 0
  {
    if k !in r.fields then l.fields[k]
    else if !At(opts, path).merge || k !in l.fields then r.fields[k]
    else
      match l.fields[k]
      case Obj(_) => Merge(env, opts, PathBelow(path, k), l.fields[k], r.fields[k])
      case Arr(items) => Arr(ArrayWith(env, items, r.fields[k].items, At(opts, PathBelow(path, k))).0)
      case _ => r.fields[k]
  }

  class ObjectJson {
    var members: map<Text, Json>

    constructor (fields: map<Text, Json>)
      ensures members == fields
    {
      members := fields;
    }

    /** The fields of the other object come in any order; a nested object is merged before the next field. */
    method WithOptions(env: Env, other: Json, opts: Options, path: Text) returns (end: Outcome)
      modifies this
      ensures end.Ok? <==> Mergeable(env, opts, path, old(Obj(members)), other)
      ensures end.Ok? ==> Obj(members) == Merge(env, opts, path, old(Obj(members)), other)
      decreases other, 0
    {
      NeedsObject(env, opts, path, Obj(members), other);
      if !other.Obj? {
        return Err(Unsupported);
      }
      hide Mergeable, Merge, FieldDone, Partly;
      ghost var l := Obj(members);
      var rest := other.fields.Keys;
      NoneDone(env, opts, path, l, other);
      while rest != {}
        invariant Partly(env, opts, path, l, other, members, rest)
      {
        var k :| k in rest;
        Untouched(env, opts, path, l, other, members, rest, k);
        if At(opts, path).merge && k in members {
          var merged := MergeValue(env, members[k], other.fields[k], At(opts, PathBelow(path, k)), opts, PathBelow(path, k));
          MeansDone(env, opts, path, l, other, k, merged);
          if merged.Err? {
            return Err(merged.error);
          }
          members := members[k := merged.value];
        } else {
          ValueReplaced(env, opts, path, l, other, k);
          members := members[k := other.fields[k]];
        }
        rest := rest - {k};
      }
      AllDone(env, opts, path, l, other, members);
      return Ok(());
    }
  }

  /** The value of a field with the other one merged into it; objects and arrays are merged in place. */
  method MergeValue(env: Env, local: Json, value: Json, here: PathOptions, opts: Options,
      path: Text) returns (r: Result<Json>)
    ensures ValueMerged(env, opts, path, here, local, value, r)
    decreases value, 1
  {
    match local
    case Obj(fields) =>
      var nested := new ObjectJson(fields);
      var end := nested.WithOptions(env, value, opts, path);
      r := if end.Ok? then Ok(Obj(nested.members)) else Err(end.error);
    case Arr(items) =>
      if !value.Arr? {
        return Err(Unsupported);
      }
      var list := new ArrayJson(items);
      var end := list.WithOptions(env, value.items, here);
      r := if end.Ok? then Ok(Arr(list.L)) else Err(end.error);
    case _ =>
      r := Ok(value);
  }

  ghost predicate ValueMerged(env: Env, opts: Options, path: Text, here: PathOptions, l: Json, r: Json,
      m: Result<Json>) {
    match l
    case Obj(_) =>
      && (m.Ok? <==> Mergeable(env, opts, path, l, r))
      && (m.Ok? ==> m.value == Merge(env, opts, path, l, r))
    case Arr(items) =>
      && (m.Ok? <==> r.Arr? && ArrayWith(env, items, r.items, here).1.Ok?)
      && (m.Ok? ==> m.value == Arr(ArrayWith(env, items, r.items, here).0))
    case _ => m == Ok(r)
  }

  /** The fields not in `rest` are merged, the others as they were. */
  ghost predicate Partly(env: Env, opts: Options, path: Text, l: Json, r: Json, members: map<Text, Json>,
      rest: set<Text>)
    requires l.Obj? && r.Obj?
  {
    && rest <= r.fields.Keys
    && members.Keys == l.fields.Keys + (r.fields.Keys - rest)
    && (forall k :: k in members && (k !in r.fields || k in rest) ==> members[k] == l.fields[k])
    && forall k :: k in r.fields && k !in rest ==> FieldDone(env, opts, path, l, r, k, members[k])
  }

  lemma NoneDone(env: Env, opts: Options, path: Text, l: Json, r: Json)
    requires l.Obj? && r.Obj?
    ensures Partly(env, opts, path, l, r, l.fields, r.fields.Keys)
  {
  }

  lemma Untouched(env: Env, opts: Options, path: Text, l: Json, r: Json, members: map<Text, Json>, rest: set<Text>,
      k: Text)
    requires l.Obj? && r.Obj? && Partly(env, opts, path, l, r, members, rest) && k in rest
    ensures k in r.fields && (k in members <==> k in l.fields) && (k in members ==> members[k] == l.fields[k])
    ensures forall v :: FieldDone(env, opts, path, l, r, k, v) ==> Partly(env, opts, path, l, r, members[k := v], rest - {k})
  {
    hide FieldDone;
  }

  lemma MeansDone(env: Env, opts: Options, path: Text, l: Json, r: Json, k: Text, m: Result<Json>)
    requires l.Obj? && r.Obj? && k in l.fields && k in r.fields && At(opts, path).merge
    requires ValueMerged(env, opts, PathBelow(path, k), At(opts, PathBelow(path, k)), l.fields[k], r.fields[k], m)
    ensures m.Ok? ==> FieldDone(env, opts, path, l, r, k, m.value)
    ensures m.Err? ==> !Mergeable(env, opts, path, l, r)
  {
  }

  lemma ValueReplaced(env: Env, opts: Options, path: Text, l: Json, r: Json, k: Text)
    requires l.Obj? && r.Obj? && k in r.fields && (!At(opts, path).merge || k !in l.fields)
    ensures FieldDone(env, opts, path, l, r, k, r.fields[k])
  {
  }

  lemma NeedsObject(env: Env, opts: Options, path: Text, l: Json, r: Json)
    ensures Mergeable(env, opts, path, l, r) ==> r.Obj?
  {
  }

  /** The field is merged, without exception. */
  ghost predicate FieldDone(env: Env, opts: Options, path: Text, l: Json, r: Json, k: Text, v: Json)
    requires l.Obj? && r.Obj? && k in r.fields
  {
    if !At(opts, path).merge || k !in l.fields then v == r.fields[k]
    else
      match l.fields[k]
      case Obj(_) =>
        && Mergeable(env, opts, PathBelow(path, k), l.fields[k], r.fields[k])
        && v == Merge(env, opts, PathBelow(path, k), l.fields[k], r.fields[k])
      case Arr(items) =>
        && r.fields[k].Arr?
        && var (m, end) := ArrayWith(env, items, r.fields[k].items, At(opts, PathBelow(path, k)));
           end.Ok? && v == Arr(m)
      case _ => v == r.fields[k]
  }

  lemma AllDone(env: Env, opts: Options, path: Text, l: Json, r: Json, members: map<Text, Json>)
    requires l.Obj? && r.Obj? && Partly(env, opts, path, l, r, members, {})
    ensures Mergeable(env, opts, path, l, r)
    ensures Obj(members) == Merge(env, opts, path, l, r)
  {
    hide ArrayWith;
    forall k | k in r.fields
      ensures FieldDone(env, opts, path, l, r, k, members[k])
    {
    }
    forall k | k in members
      ensures members[k] == MergedField(env, opts, path, l, r, k)
    {
    }
    assert members == Merge(env, opts, path, l, r).fields;
  }
}
