// The fixed-capacity circular FIFO of the turret sketch (RingQueue<T, SIZE>).
//
// The queue is a class over an array with three indices, exactly as in the
// C++ template: `head` is where the next item is WRITTEN, `tail` is where the
// next item is READ, and `count` is how many items are stored.  A ghost
// sequence `Contents` is the abstract FIFO; `Valid()` ties it to the array.
//
// Beside the class, `Push`, `Pop` and `Run` give the queue's meaning on plain
// sequences, so that properties over many calls (FIFO order, capacity) can
// be stated as lemmas.

module EventQueue {

  datatype Option<T> = None | Some(value: T)

  // ---------------------------------------------------------------------
  // The abstract queue: a sequence with a capacity
  // ---------------------------------------------------------------------

  /** Offer `x` to a queue `q` of capacity `cap`: a full queue refuses it and
      stays as it was; otherwise `x` joins at the back. */
  function Push<T>(q: seq<T>, cap: nat, x: T): (r: (seq<T>, bool))
    ensures r.1 <==> |q| < cap
    ensures |q| <= cap ==> |r.0| <= cap
    ensures |q| <= |r.0| && r.0[..|q|] == q
    ensures r.1 ==> r.0 == q + [x]
    ensures !r.1 ==> r.0 == q
  {
    if |q| >= cap then (q, false) else (q + [x], true)
  }

  /** Take the front item of a non-empty queue. */
  function Pop<T>(q: seq<T>): (r: (T, seq<T>))
    requires q != []
    ensures [r.0] + r.1 == q
  {
    (q[0], q[1..])
  }

  /** One call on the queue. */
  datatype Op<T> = Enq(item: T) | Deq

  /** What a run of calls did: the queue left behind, the items the queue
      accepted and refused (in call order), and the items dequeued. */
  datatype Outcome<T> = Outcome(final: seq<T>, accepted: seq<T>, rejected: seq<T>, taken: seq<T>)

  /** The queue after one call; a `Deq` on an empty queue leaves it as is
      (`Run` reports that case as a violation). */
  function Next<T>(q: seq<T>, cap: nat, op: Op<T>): seq<T>
  {
    match op
    case Enq(x) => Push(q, cap, x).0
    case Deq => if q == [] then q else Pop(q).1
  }

  /** Perform `ops` in order on `q`.  `None` when some `Deq` meets an empty
      queue, which callers must never do (they check `IsEmpty` first). */
  function Run<T>(q: seq<T>, cap: nat, ops: seq<Op<T>>): Option<Outcome<T>>
    decreases |ops|
  {
    if ops == [] then Some(Outcome(q, [], [], []))
    else
      match ops[0]
      case Enq(x) =>
        var (q1, ok) := Push(q, cap, x);
        (match Run(q1, cap, ops[1..])
         case None => None
         case Some(o) =>
           if ok then Some(o.(accepted := [x] + o.accepted))
           else Some(o.(rejected := [x] + o.rejected)))
      case Deq =>
        if q == [] then None
        else
          var (x, q1) := Pop(q);
          (match Run(q1, cap, ops[1..])
           case None => None
           case Some(o) => Some(o.(taken := [x] + o.taken)))
  }

  /** Number of `Enq` calls in `ops`. */
  function Offers<T>(ops: seq<Op<T>>): nat
  {
    if ops == [] then 0 else (if ops[0].Enq? then 1 else 0) + Offers(ops[1..])
  }

  /** FIFO: what was in the queue, followed by everything it accepted, is
      exactly what came out followed by what is still in it. */
  lemma {:induction false} RunIsFifo<T>(q: seq<T>, cap: nat, ops: seq<Op<T>>, o: Outcome<T>)
    requires Run(q, cap, ops) == Some(o)
    ensures q + o.accepted == o.taken + o.final
    decreases |ops|
  {
    if ops != [] {
      var q1 := Next(q, cap, ops[0]);
      var o1 := Run(q1, cap, ops[1..]).value;
      RunIsFifo(q1, cap, ops[1..], o1);
      if ops[0].Enq? {
        if |q| < cap {
          assert q + o.accepted == (q + [ops[0].item]) + o1.accepted;
        }
      } else {
        assert q + o.accepted == [q[0]] + (q1 + o1.accepted);
      }
    }
  }

  /** From an empty queue, items come out in exactly the order they were
      accepted: the dequeued items are a prefix of the accepted ones and the
      rest of them is what the queue still holds. */
  lemma FifoFromEmpty<T>(cap: nat, ops: seq<Op<T>>, o: Outcome<T>)
    requires Run([], cap, ops) == Some(o)
    ensures |o.taken| <= |o.accepted|
    ensures o.taken == o.accepted[..|o.taken|]
    ensures o.final == o.accepted[|o.taken|..]
  {
    RunIsFifo([], cap, ops, o);
    assert [] + o.accepted == o.accepted;
  }

  /** The queue never holds more than its capacity. */
  lemma {:induction false} RunWithinCapacity<T>(q: seq<T>, cap: nat, ops: seq<Op<T>>, o: Outcome<T>)
    requires |q| <= cap
    requires Run(q, cap, ops) == Some(o)
    ensures |o.final| <= cap
    decreases |ops|
  {
    if ops != [] {
      var q1 := Next(q, cap, ops[0]);
      RunWithinCapacity(q1, cap, ops[1..], Run(q1, cap, ops[1..]).value);
    }
  }

  /** Items are refused only for lack of room: when the queue has room for
      every offer, nothing is refused. */
  lemma {:induction false} RunRefusesNothingWithRoom<T>(q: seq<T>, cap: nat, ops: seq<Op<T>>, o: Outcome<T>)
    requires |q| + Offers(ops) <= cap
    requires Run(q, cap, ops) == Some(o)
    ensures o.rejected == []
    decreases |ops|
  {
    if ops != [] {
      var q1 := Next(q, cap, ops[0]);
      RunRefusesNothingWithRoom(q1, cap, ops[1..], Run(q1, cap, ops[1..]).value);
    }
  }

  // ---------------------------------------------------------------------
  // The ring buffer itself
  // ---------------------------------------------------------------------

  /** An index below twice the capacity wraps at most once. */
  lemma Wrap(x: int, n: int)
    requires 0 < n && 0 <= x < 2 * n
    ensures x % n == if x < n then x else x - n
  {
  }

  class RingQueue<T(0)> {
    const size: nat           // the template argument SIZE
    const buffer: array<T>
    var head: nat             // write index
    var tail: nat             // read index
    var count: nat
    ghost var Contents: seq<T>

    /** The representation invariant: indices in range, the write index is
        `count` slots after the read index, and the i-th queued item sits
        i slots after the read index. */
    ghost predicate Valid()
      reads this, buffer
    {
      0 < size && buffer.Length == size &&
      count <= size && head < size && tail < size &&
      head == (tail + count) % size &&
      |Contents| == count &&
      forall i :: 0 <= i < count ==> Contents[i] == buffer[(tail + i) % size]
    }

    constructor (size: nat)
      requires 0 < size
      ensures Valid() && fresh(buffer)
      ensures this.size == size
      ensures head == 0 && tail == 0 && count == 0
      ensures Contents == []
    {
      this.size := size;
      buffer := new T[size];
      head, tail, count := 0, 0, 0;
      Contents := [];
    }

    /** Append `item` unless the queue is full; a full queue is left
        completely unchanged and `false` is reported. */
    method Enqueue(item: T) returns (ok: bool)
      requires Valid()
      modifies this, buffer
      ensures Valid()
      ensures (Contents, ok) == Push(old(Contents), size, item)
      ensures ok <==> old(count) < size
      ensures !ok ==> head == old(head) && tail == old(tail) && count == old(count) && buffer[..] == old(buffer[..])
      ensures ok ==> buffer[..] == old(buffer[..])[old(head) := item] &&
                     head == (old(head) + 1) % size && tail == old(tail) && count == old(count) + 1
    {
      if count >= size {
        return false;
      }
      Wrap(tail + count, size);
      buffer[head] := item;
      head := (head + 1) % size;
      count := count + 1;
      Contents := Contents + [item];
      ok := true;
      Wrap(old(head) + 1, size);
      Wrap(tail + count, size);
      forall i | 0 <= i < count
        ensures Contents[i] == buffer[(tail + i) % size]
      {
        Wrap(tail + i, size);
      }
    }

    /** Remove and return the front item.  The source has no emptiness
        guard: callers check `IsEmpty()` first. */
    method Dequeue() returns (item: T)
      requires Valid() && count > 0
      modifies this
      ensures Valid()
      ensures (item, Contents) == Pop(old(Contents))
      ensures item == buffer[old(tail)]
      ensures tail == (old(tail) + 1) % size && head == old(head) && count == old(count) - 1
    {
      item := buffer[tail];
      assert item == Contents[0] by { Wrap(tail, size); }
      tail := (tail + 1) % size;
      count := count - 1;
      Contents := Contents[1..];
      Wrap(old(tail) + 1, size);
      Wrap(tail + count, size);
      Wrap(old(tail) + 1 + count, size);
      forall i | 0 <= i < count
        ensures Contents[i] == buffer[(tail + i) % size]
      {
        Wrap(tail + i, size);
        Wrap(old(tail) + 1 + i, size);
      }
    }

    /** True exactly when nothing is queued. */
    function IsEmpty(): (r: bool)
      reads this, buffer
      requires Valid()
      ensures r <==> Contents == []
    {
      count == 0
    }

    /** True exactly when the queue holds `size` items and refuses more. */
    function IsFull(): (r: bool)
      reads this, buffer
      requires Valid()
      ensures r <==> |Contents| == size
    {
      count >= size
    }

    /** The number of queued items. */
    function GetCount(): (r: nat)
      reads this, buffer
      requires Valid()
      ensures r == |Contents| && r <= size
    {
      count
    }

    /** The item the next `Dequeue` would return, without removing it.  On
        an empty queue this is whatever the read slot holds. */
    function Peek(): (r: T)
      reads this, buffer
      requires Valid()
      ensures Contents != [] ==> r == Contents[0]
    {
      buffer[tail]
    }

    /** Empty the queue; the array's slots are not touched. */
    method Clear()
      requires Valid()
      modifies this
      ensures Valid()
      ensures Contents == []
      ensures head == 0 && tail == 0 && count == 0
    {
      head := 0;
      tail := 0;
      count := 0;
      Contents := [];
    }
  }

  /** A queue of capacity four: four items go in, a fifth is refused,
      `Peek` agrees with `Dequeue`, and the four come out in order. */
  method CapacityFourScenario<T(0)>(a: T, b: T, c: T, d: T, e: T)
    returns (accepted: seq<bool>, taken: seq<T>)
    ensures accepted == [true, true, true, true, false]
    ensures taken == [a, b, c, d]
  {
    var q := new RingQueue<T>(4);
    var ok1 := q.Enqueue(a);
    var ok2 := q.Enqueue(b);
    var ok3 := q.Enqueue(c);
    var ok4 := q.Enqueue(d);
    var ok5 := q.Enqueue(e);
    assert q.Contents == [a, b, c, d];
    accepted := [ok1, ok2, ok3, ok4, ok5];
    taken := [];
    var front := q.Peek();
    var x := q.Dequeue();
    assert front == x;
    taken := taken + [x];
    x := q.Dequeue();
    taken := taken + [x];
    x := q.Dequeue();
    taken := taken + [x];
    x := q.Dequeue();
    taken := taken + [x];
    assert q.IsEmpty();
  }
}
