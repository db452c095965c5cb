/** `ArrayJson.withOptions`: merging a list into another, in order or without repeats. */
module ArrayMerges {
  import opened Units
  import opened JsonValues
  import opened Numbers
  import opened ReaderSpec
  import opened Pointers
  import opened Schemas

  /** The options that apply at one path. */
  datatype PathOptions = PathOptions(merge: bool, dup: bool, sort: bool, compareBy: Json)

  // ---------------------------------------------------------------- comparing

  function Sign(n: int): int {
    if n < 0 then -1 else if n > 0 then 1 else 0
  }

  /** `String.compareTo`, up to its size. */
  function CompareText(s: Text, t: Text): int {
    if s == [] || t == [] then Sign(|s| - |t|)
    else if s[0] != t[0] then Sign(s[0] as int - t[0] as int)
    else CompareText(s[1..], t[1..])
  }

  function CompareReal(x: real, y: real): int {
    if x < y then -1 else if x > y then 1 else 0
  }

  /** `compareTo` of the Java values: defined within one comparable class. */
  function CompareValues(env: Env, a: Json, b: Json): Result<int> {
    match (a, b)
    case (Null, _) => Err(NullPointer)
    case (Arr(_), _) => Err(ClassCast)
    case (Obj(_), _) => Err(ClassCast)
    case (_, Null) => Err(NullPointer)
    case (Str(s), Str(t)) => Ok(CompareText(s, t))
    case (Bool(x), Bool(y)) => Ok(if x == y then 0 else if y then -1 else 1)
    case (Int(m), Int(n)) => if IsLong(m) == IsLong(n) then Ok(Sign(m - n)) else Err(ClassCast)
    case (Dec(x), Dec(y)) => Ok(CompareReal(env.decimal(x), env.decimal(y)))
    case _ => Err(ClassCast)
  }

  /** `compareJson`. A field named by `compareBy` is a `Json`, which Java cannot compare. */
  function CompareJson(env: Env, left: Json, right: Json, compareBy: Json): Result<int> {
    match compareBy
    case Null => CompareValues(env, left, right)
    case Str(field) => CompareField(left, right, field)
    case Arr(fields) =>
      if fields == [] then Ok(0)
      else
        var field :- AsKey(fields[0]);
        CompareField(left, right, field)
    case _ => Err(BadOption)
  }

  function CompareField(left: Json, right: Json, field: Text): Result<int> {
    var l :- Resolve(field, left);
    var _ :- Resolve(field, right);
    if l.None? then Err(NullPointer) else Err(ClassCast)
  }

  /** `isEqualJson`, with the fields to compare by. */
  function EqualJson(env: Env, left: Json, right: Json, compareBy: Json): Result<bool> {
    match compareBy
    case Null => Ok(Same(env, left, right))
    case Str(field) => EqualField(env, left, right, field)
    case Arr(fields) => EqualFields(env, left, right, fields)
    case _ => Err(BadOption)
  }

  function EqualField(env: Env, left: Json, right: Json, field: Text): Result<bool> {
    var l :- Resolve(field, left);
    var r :- Resolve(field, right);
    Ok(if l.None? then r.None? else r.Some? && Same(env, l.value, r.value))
  }

  function EqualFields(env: Env, left: Json, right: Json, fields: seq<Json>): Result<bool> {
    if fields == [] then Ok(true)
    else
      var field :- AsKey(fields[0]);
      var equal :- EqualField(env, left, right, field);
      if equal then EqualFields(env, left, right, fields[1..]) else Ok(false)
  }

  // ---------------------------------------------------------------- merging lists

  /** The list after `sort` merges `a` into `l`, and how it ends: an exception leaves the list as it is then. */
  function Merged(env: Env, l: seq<Json>, a: seq<Json>, compareBy: Json): (r: (seq<Json>, Outcome))
    decreases 2 * |a| + |l|
  {
    if a == [] then (l, Ok(()))
    else if l == [] then (a, Ok(()))
    else
      match CompareJson(env, l[0], a[0], compareBy)
      case Err(e) => (l, Err(e))
      case Ok(c) =>
        if c < 0 then
          var (m, end) := Merged(env, l[1..], a, compareBy);
          ([l[0]] + m, end)
        else if c > 0 then Merged(env, [a[0]] + l, a[1..], compareBy)
        else Merged(env, l, a[1..], compareBy)
  }

  /** Whether some element equals `e`; the first one found ends the search. */
  function Present(env: Env, l: seq<Json>, e: Json, compareBy: Json): Result<bool> {
    if l == [] then Ok(false)
    else
      var equal :- EqualJson(env, l[0], e, compareBy);
      if equal then Ok(true) else Present(env, l[1..], e, compareBy)
  }

  /** The list after the elements of `a` that it does not have are added at its end. */
  function WithAdded(env: Env, l: seq<Json>, a: seq<Json>, compareBy: Json): (r: (seq<Json>, Outcome))
    decreases |a|
  {
    if a == [] then (l, Ok(()))
    else
      match Present(env, l, a[0], compareBy)
      case Err(e) => (l, Err(e))
      case Ok(present) => WithAdded(env, if present then l else l + [a[0]], a[1..], compareBy)
  }

  function ArrayWith(env: Env, l: seq<Json>, a: seq<Json>, opts: PathOptions): (seq<Json>, Outcome) {
    if opts.sort then Merged(env, l, a, opts.compareBy) else WithAdded(env, l, a, opts.compareBy)
  }

  class ArrayJson {
    var L: seq<Json>

    constructor (items: seq<Json>)
      ensures L == items
    {
      L := items;
    }

    /** The list is edited while it is scanned. */
    method WithSort(env: Env, that: seq<Json>, compareBy: Json) returns (end: Outcome)
      modifies this
      ensures (L, end) == Merged(env, old(L), that, compareBy)
    {
      hide Merged, CompareJson;
      var thisIndex, thatIndex := 0, 0;
      assert L[..0] == [] && L[0..] == L && that[0..] == that;
      assert [] + Merged(env, L, that, compareBy).0 == Merged(env, L, that, compareBy).0;
      while thatIndex < |that|
        invariant 0 <= thisIndex <= |L| && 0 <= thatIndex <= |that|
        invariant Behind(env, L[..thisIndex], L[thisIndex..], that[thatIndex..], compareBy) == Merged(env, old(L), that, compareBy)
        decreases 2 * (|that| - thatIndex) + (|L| - thisIndex)
      {
        var thatElement := that[thatIndex];
        ghost var done, l, a := L[..thisIndex], L[thisIndex..], that[thatIndex..];
        assert a[0] == thatElement && a[1..] == that[thatIndex + 1..];
        MergeStep(env, done, l, a, compareBy);
        if thisIndex == |L| {
          L := L + [thatElement];
          assert L[thisIndex + 1..] == [] && L[..thisIndex + 1] == done + [thatElement];
          thisIndex, thatIndex := thisIndex + 1, thatIndex + 1;
          continue;
        }
        assert l[0] == L[thisIndex] && l[1..] == L[thisIndex + 1..];
        var compared := CompareJson(env, L[thisIndex], thatElement, compareBy);
        if compared.Err? {
          assert L == done + l;
          return Err(compared.error);
        }
        if compared.value < 0 {
          assert L[..thisIndex + 1] == done + [l[0]];
          thisIndex := thisIndex + 1;
        } else if compared.value > 0 {
          L := L[..thisIndex] + [thatElement] + L[thisIndex..];
          assert L[thisIndex..] == [thatElement] + l && L[..thisIndex] == done;
          thatIndex := thatIndex + 1;
        } else {
          thatIndex := thatIndex + 1;
        }
      }
      assert that[thatIndex..] == [] && L == L[..thisIndex] + L[thisIndex..];
      NothingLeft(env, L[thisIndex..], compareBy);
      return Ok(());
    }

    /** Merging what is left behind the part already passed. */
    static ghost function Behind(env: Env, done: seq<Json>, l: seq<Json>, a: seq<Json>,
        compareBy: Json): (seq<Json>, Outcome) {
      var (m, end) := Merged(env, l, a, compareBy);
      (done + m, end)
    }

    static lemma NothingLeft(env: Env, l: seq<Json>, compareBy: Json)
      ensures Merged(env, l, [], compareBy) == (l, Ok(()))
    {
    }

    static lemma MergeStep(env: Env, done: seq<Json>, l: seq<Json>, a: seq<Json>, compareBy: Json)
      requires a != []
      ensures l == [] ==>
                Behind(env, done, l, a, compareBy) == Behind(env, done + [a[0]], [], a[1..], compareBy)
      ensures l != [] ==>
                var c := CompareJson(env, l[0], a[0], compareBy);
                Behind(env, done, l, a, compareBy) ==
                if c.Err? then (done + l, Err(c.error))
                else if c.value < 0 then Behind(env, done + [l[0]], l[1..], a, compareBy)
                else if c.value > 0 then Behind(env, done, [a[0]] + l, a[1..], compareBy)
                else Behind(env, done, l, a[1..], compareBy)
    {
      hide CompareJson;
      if l == [] {
        assert a == [a[0]] + a[1..];
        Regrouped(done, [a[0]], a[1..]);
      } else {
        Regrouped(done, [l[0]], Merged(env, l[1..], a, compareBy).0);
      }
    }

    method WithoutRepeats(env: Env, that: seq<Json>, compareBy: Json) returns (end: Outcome)
      modifies this
      ensures (L, end) == WithAdded(env, old(L), that, compareBy)
    {
      for j := 0 to |that|
        invariant WithAdded(env, L, that[j..], compareBy) == WithAdded(env, old(L), that, compareBy)
      {
        assert that[j..][0] == that[j] && that[j..][1..] == that[j + 1..];
        var present := Has(env, that[j], compareBy);
        if present.Err? {
          return Err(present.error);
        }
        if !present.value {
          L := L + [that[j]];
        }
      }
      return Ok(());
    }

    method Has(env: Env, e: Json, compareBy: Json) returns (present: Result<bool>)
      ensures present == Present(env, L, e, compareBy)
    {
      for i := 0 to |L|
        invariant Present(env, L[i..], e, compareBy) == Present(env, L, e, compareBy)
      {
        assert L[i..][0] == L[i] && L[i..][1..] == L[i + 1..];
        var equal := EqualJson(env, L[i], e, compareBy);
        if equal.Err? || equal.value {
          return equal;
        }
      }
      return Ok(false);
    }

    method WithOptions(env: Env, that: seq<Json>, opts: PathOptions) returns (end: Outcome)
      modifies this
      ensures (L, end) == ArrayWith(env, old(L), that, opts)
    {
      if opts.sort {
        end := WithSort(env, that, opts.compareBy);
      } else {
        end := WithoutRepeats(env, that, opts.compareBy);
      }
    }
  }
}
