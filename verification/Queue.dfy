/** `CircularQueue`: a ring buffer, and the bounded first-in first-out queue it refines. */
module Queues {
  import opened Units

  /** What an operation gives back, or the exception it throws. */
  datatype Attempt<+T> = Success(value: T) | QueueFull | QueueEmpty

  // ---------------------------------------------------------------- the bounded queue

  datatype Operation<E> = Enqueue(item: E) | Dequeue | ForEach

  /** What an operation hands out; `visited` are the elements `forEach` gives to its consumer. */
  datatype Output<E> = Enqueued(done: Attempt<()>) | Dequeued(taken: Attempt<E>) | Drained(visited: seq<E>)

  function Apply<E>(capacity: nat, q: seq<E>, op: Operation<E>): (r: (seq<E>, Output<E>)) {
    match op
    case Enqueue(item) => if |q| >= capacity then (q, Enqueued(QueueFull)) else (q + [item], Enqueued(Success(())))
    case Dequeue => if q == [] then (q, Dequeued(QueueEmpty)) else (q[1..], Dequeued(Success(q[0])))
    case ForEach => ([], Drained(q))
  }

  /** The queue after some operations, and their outputs. */
  function ApplyAll<E>(capacity: nat, q: seq<E>, ops: seq<Operation<E>>): (r: (seq<E>, seq<Output<E>>))
    ensures |r.1| == |ops|
  {
    if ops == [] then (q, [])
    else
      var (before, outs) := ApplyAll(capacity, q, ops[..|ops| - 1]);
      var (after, out) := Apply(capacity, before, ops[|ops| - 1]);
      (after, outs + [out])
  }

  /** The elements taken in, by operations and outputs. */
  function Accepted<E>(ops: seq<Operation<E>>, outs: seq<Output<E>>): seq<E>
    requires |ops| == |outs|
  {
    if ops == [] then []
    else
      var n := |ops| - 1;
      Accepted(ops[..n], outs[..n])
      + if ops[n].Enqueue? && outs[n] == Enqueued(Success(())) then [ops[n].item] else []
  }

  /** The elements handed out. */
  function Delivered<E>(outs: seq<Output<E>>): seq<E> {
    if outs == [] then []
    else
      var n := |outs| - 1;
      Delivered(outs[..n])
      + match outs[n]
        case Dequeued(Success(item)) => [item]
        case Drained(items) => items
        case _ => []
  }

  /** First in, first out, none lost or doubled: what came out and what is still inside is what went in, in order. */
  lemma {:induction false} FirstInFirstOut<E>(capacity: nat, ops: seq<Operation<E>>)
    ensures var (q, outs) := ApplyAll<E>(capacity, [], ops);
            && Delivered(outs) + q == Accepted(ops, outs)
            && |q| <= capacity
  {
    if ops != [] {
      var n := |ops| - 1;
      FirstInFirstOut(capacity, ops[..n]);
      var (before, outs) := ApplyAll(capacity, [], ops[..n]);
      var (after, out) := Apply(capacity, before, ops[n]);
      assert (outs + [out])[..n] == outs;
    }
  }

  // ---------------------------------------------------------------- the ring buffer

  /** `(start + k) % length`, for positions at most one turn ahead. */
  function Ahead(start: int, k: int, length: int): int {
    if start + k < length then start + k else start + k - length
  }

  lemma RemainderIsAhead(a: int, length: int)
    requires 0 <= a < 2 * length
    ensures a % length == Ahead(a, 0, length)
  {
    if a >= length {
      assert a == length + (a - length);
    }
  }

  class CircularQueue<E> {
    var currentSize: int
    const circularQueueElements: array<Option<E>>
    var rear: int
    var front: int

    /**
     * Front and rear are both -1 until the first element arrives; from then on the live window starts at the front and
     * ends at the rear. The slots of the window are filled, all others are null.
     */
    ghost predicate Valid()
      reads this, circularQueueElements
    {
      var length := circularQueueElements.Length;
      && 0 <= currentSize <= length
      && (front == -1 ==> rear == -1 && currentSize == 0)
      && (front != -1 ==> 0 <= front < length && 0 <= rear < length && Ahead(rear, 1, length) == Ahead(front, currentSize, length))
      && (forall k :: 0 <= k < currentSize ==> circularQueueElements[Ahead(front, k, length)].Some?)
      && forall i :: 0 <= i < length && !InWindow(i) ==> circularQueueElements[i] == None
    }

    ghost predicate InWindow(i: int)
      reads this
    {
      front <= i < front + currentSize || i < front + currentSize - circularQueueElements.Length
    }

    ghost function Contents(): (q: seq<E>)
      requires Valid()
      reads this, circularQueueElements
      ensures |q| == currentSize
    {
      seq(currentSize, k requires 0 <= k < currentSize && Valid() reads this, circularQueueElements =>
            circularQueueElements[Ahead(front, k, circularQueueElements.Length)].value)
    }

    constructor (maxSize: nat)
      ensures Valid() && fresh(circularQueueElements)
      ensures circularQueueElements.Length == maxSize && Contents() == []
    {
      circularQueueElements := new Option<E>[maxSize](_ => None);
      currentSize := 0;
      front := -1;
      rear := -1;
    }

    method Enqueue(item: E) returns (done: Attempt<()>)
      requires Valid()
      modifies this, circularQueueElements
      ensures Valid()
      ensures (Contents(), Enqueued(done)) == Apply(circularQueueElements.Length, old(Contents()), Operation.Enqueue(item))
    {
      if IsFull() {
        return QueueFull;
      }
      ghost var was, slots, length := Contents(), circularQueueElements[..], circularQueueElements.Length;
      RemainderIsAhead(rear + 1, circularQueueElements.Length);
      rear := (rear + 1) % circularQueueElements.Length;
      circularQueueElements[rear] := Some(item);
      currentSize := currentSize + 1;
      if front == -1 {
        front := rear;
      }
      assert rear == Ahead(front, |was|, length);
      forall k | 0 <= k < |was|
        ensures Ahead(front, k, length) != rear
        ensures slots[Ahead(front, k, length)] == Some(was[k])
      {
      }
      assert Contents() == was + [item];
      return Success(());
    }

    method Dequeue() returns (taken: Attempt<E>)
      requires Valid()
      modifies this, circularQueueElements
      ensures Valid()
      ensures (Contents(), Dequeued(taken)) == Apply(circularQueueElements.Length, old(Contents()), Operation.Dequeue)
    {
      if IsEmpty() {
        return QueueEmpty;
      }
      ghost var was, slots, first, length := Contents(), circularQueueElements[..], front, circularQueueElements.Length;
      assert Ahead(first, 0, length) == first;
      taken := Success(circularQueueElements[front].value);
      circularQueueElements[front] := None;
      RemainderIsAhead(front + 1, circularQueueElements.Length);
      front := (front + 1) % circularQueueElements.Length;
      currentSize := currentSize - 1;
      forall k | 0 <= k < currentSize
        ensures Ahead(front, k, length) == Ahead(first, k + 1, length) != first
        ensures slots[Ahead(first, k + 1, length)] == Some(was[k + 1])
      {
      }
      assert Contents() == was[1..];
    }

    predicate IsFull()
      reads this
    {
      currentSize == circularQueueElements.Length
    }

    predicate IsEmpty()
      reads this
    {
      currentSize == 0
    }

    /** `visited` is what the consumer is given, in order. */
    method ForEach() returns (visited: seq<E>)
      requires Valid()
      modifies this, circularQueueElements
      ensures Valid()
      ensures (Contents(), Drained(visited)) == Apply(circularQueueElements.Length, old(Contents()), Operation.ForEach)
    {
      hide Valid, Contents;
      visited := [];
      while !IsEmpty()
        invariant Valid()
        invariant visited + Contents() == old(Contents())
        decreases currentSize
      {
        ghost var q, before := Contents(), visited;
        var taken := Dequeue();
        visited := visited + [taken.value];
        Regrouped(before, [q[0]], q[1..]);
        assert q == [q[0]] + q[1..];
      }
      assert Contents() == [] && visited + [] == visited;
    }

    /** Any interleaving of the operations: the ring buffer answers as the bounded queue does. */
    method Perform(ops: seq<Operation<E>>) returns (outs: seq<Output<E>>)
      requires Valid()
      modifies this, circularQueueElements
      ensures Valid()
      ensures (Contents(), outs) == ApplyAll(circularQueueElements.Length, old(Contents()), ops)
    {
      outs := [];
      for n := 0 to |ops|
        invariant Valid()
        invariant (Contents(), outs) == ApplyAll(circularQueueElements.Length, old(Contents()), ops[..n])
      {
        assert ops[..n + 1][..n] == ops[..n];
        match ops[n]
        case Enqueue(item) =>
          var done := Enqueue(item);
          outs := outs + [Enqueued(done)];
        case Dequeue =>
          var taken := Dequeue();
          outs := outs + [Dequeued(taken)];
        case ForEach =>
          var visited := ForEach();
          outs := outs + [Drained(visited)];
      }
      assert ops[..|ops|] == ops;
    }
  }
}
