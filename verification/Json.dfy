/** JSON values, and what can go wrong when one is read. */
module JsonValues {
  import opened Units

  /**
   * A JSON value. A number held as `Long`, `Integer` or `BigInteger` is `Int`; one held as `Double` or
   * `BigDecimal` is `Dec`, identified by the text it prints as. The fields of an object have no order.
   */
  datatype Json =
    | Null
    | Bool(b: bool)
    | Str(s: Text)
    | Int(n: int)
    | Dec(literal: Text)
    | Arr(items: seq<Json>)
    | Obj(fields: map<Text, Json>)

  /** The Java exception an operation ends with. */
  datatype Error =
    | Malformed     // MalformedJsonException
    | NumberFormat  // NumberFormatException
    | ClassCast     // ClassCastException: a punctuation mark where a value is needed
    | Unsupported   // UnsupportedOperationException: an operation that the kind of value does not have
    | NullPointer   // NullPointerException
    | OutOfBounds   // IndexOutOfBoundsException
    | Unresolvable  // RuntimeException: a pointer that goes on past a leaf
    | BadOption     // IllegalArgumentException: an option of the wrong kind

  datatype Result<+T> = Ok(value: T) | Err(error: Error) {
    predicate IsFailure() {
      Err?
    }

    function PropagateFailure<U>(): Result<U>
      requires Err?
    {
      Err(error)
    }

    function Extract(): T
      requires Ok?
    {
      value
    }
  }

  /** The end of an operation that gives nothing back. */
  type Outcome = Result<()>
}
