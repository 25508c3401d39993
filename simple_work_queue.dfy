/** SimpleWorkQueue.java: an unbounded FIFO of work items over a
    `LinkedBlockingQueue`. Its `put` and `take` acquire the queue's lock
    interruptibly: a thread whose interrupt flag is already set gets an
    `InterruptedException` and loses the flag. */
module SimpleWorkQueue {
  import opened Wrappers
  import opened Jdk
  import opened WorkItems

  /** `LinkedBlockingQueue.remove(o)`: drops the first occurrence of `x`,
      keeping every other item. */
  function RemoveFirst<T(==)>(s: seq<T>, x: T): (r: seq<T>)
    ensures |r| == if x in s then |s| - 1 else |s|
    ensures multiset(r) == multiset(s) - multiset{x}
  {
    if s == [] then []
    else if s[0] == x then
      assert s == [s[0]] + s[1..];
      assert multiset(s) == multiset{x} + multiset(s[1..]);
      s[1..]
    else
      var rest := RemoveFirst(s[1..], x);
      assert s == [s[0]] + s[1..];
      assert x in s <==> x in s[1..];
      assert multiset(s) == multiset{s[0]} + multiset(s[1..]);
      assert multiset([s[0]] + rest) == multiset{s[0]} + multiset(rest);
      [s[0]] + rest
  }

  /** Where the first occurrence of `x` is. */
  function FirstIndex<T(==)>(s: seq<T>, x: T): (i: nat)
    requires x in s
    ensures i < |s| && s[i] == x && x !in s[..i]
  {
    if s[0] == x then 0
    else
      var j := FirstIndex(s[1..], x);
      assert s[..j + 1] == [s[0]] + s[1..][..j];
      j + 1
  }

  /** Removal cuts out exactly the first occurrence; the items before and
      after it keep their order. */
  lemma {:induction false} RemoveFirstKeepsOrder<T>(s: seq<T>, x: T)
    requires x in s
    ensures RemoveFirst(s, x) == s[..FirstIndex(s, x)] + s[FirstIndex(s, x) + 1..]
  {
    if s[0] != x {
      var i := FirstIndex(s[1..], x);
      RemoveFirstKeepsOrder(s[1..], x);
      SliceAround(s, i);
    }
  }

  lemma SliceAround<T>(s: seq<T>, i: nat)
    requires i + 1 < |s|
    ensures s[..i + 1] + s[i + 2..] == [s[0]] + (s[1..][..i] + s[1..][i + 1..])
  {
    assert s[..i + 1] == [s[0]] + s[1..][..i];
    assert s[i + 2..] == s[1..][i + 1..];
  }

  /** Removing an absent item changes nothing. */
  lemma {:induction false} RemoveFirstAbsent<T>(s: seq<T>, x: T)
    requires x !in s
    ensures RemoveFirst(s, x) == s
  {
    if s != [] {
      assert s[0] != x && x !in s[1..];
      RemoveFirstAbsent(s[1..], x);
      assert RemoveFirst(s, x) == [s[0]] + s[1..];
      assert s == [s[0]] + s[1..];
    }
  }

  class SimpleWorkQueue {
    var items: seq<DefaultWorkItem>

    constructor ()
      ensures items == []
    {
      items := [];
    }

    function IsEmpty(): (r: bool)
      reads this
      ensures r <==> items == []
    {
      |items| == 0
    }

    /** Removes one occurrence of `o` (items are compared by identity) and
        says whether there was one. */
    method Remove(o: DefaultWorkItem) returns (removed: bool)
      modifies this
      ensures removed <==> o in old(items)
      ensures items == RemoveFirst(old(items), o)
    {
      removed := o in items;
      items := RemoveFirst(items, o);
    }

    /** Appends at the tail; the queue has no capacity limit. Returns false
        (Java: throws `InterruptedException`) when the calling thread was
        already interrupted, which clears its flag and leaves the queue as it was. */
    method Put(workItem: DefaultWorkItem, current: Thread) returns (ok: bool)
      modifies this, current`interrupted
      ensures ok <==> !old(current.interrupted)
      ensures !current.interrupted
      ensures items == if ok then old(items) + [workItem] else old(items)
    {
      var interrupted := current.TestAndClearInterrupt();
      if interrupted {
        ok := false;
      } else {
        items := items + [workItem];
        ok := true;
      }
    }

    /** The head, without removing it; None (Java: null) when empty. */
    function Peek(): (r: Option<DefaultWorkItem>)
      reads this
      ensures r.None? <==> items == []
      ensures r.Some? ==> r.value == items[0]
    {
      if |items| == 0 then None else Some(items[0])
    }

    /** Removes and returns the head. An interrupted caller gets a
        `WorkException` instead, and its interrupt flag is set again. An
        uninterrupted take from an empty queue would wait for another
        thread, so it is excluded. */
    method Take(current: Thread) returns (r: Result<DefaultWorkItem, WorkException>)
      requires items != [] || current.interrupted
      modifies this, current`interrupted
      ensures current.interrupted == old(current.interrupted)
      ensures old(current.interrupted) ==> r == Failure(InterruptedWait) && items == old(items)
      ensures !old(current.interrupted) ==> r == Success(old(items)[0]) && items == old(items)[1..]
    {
      var interrupted := current.TestAndClearInterrupt();
      if interrupted {
        current.Interrupt();
        r := Failure(InterruptedWait);
      } else {
        r := Success(items[0]);
        items := items[1..];
      }
    }
  }

  /** A run of uninterrupted queue operations. */
  datatype QueueOp<T> = PutOp(item: T) | TakeOp

  /** Whether no take in the run meets an empty queue. */
  predicate NoTakeFromEmpty<T>(q: seq<T>, ops: seq<QueueOp<T>>)
    decreases |ops|
  {
    ops == [] ||
    (match ops[0]
     case PutOp(x) => NoTakeFromEmpty(q + [x], ops[1..])
     case TakeOp => q != [] && NoTakeFromEmpty(q[1..], ops[1..]))
  }

  /** The contents after the run and the items taken, in order, with `Put`
      and `Take` acting as their contracts say. */
  function Run<T>(q: seq<T>, ops: seq<QueueOp<T>>): (seq<T>, seq<T>)
    requires NoTakeFromEmpty(q, ops)
    decreases |ops|
  {
    if ops == [] then (q, [])
    else match ops[0]
      case PutOp(x) => Run(q + [x], ops[1..])
      case TakeOp =>
        var (rest, taken) := Run(q[1..], ops[1..]);
        (rest, [q[0]] + taken)
  }

  function Puts<T>(ops: seq<QueueOp<T>>): seq<T>
    decreases |ops|
  {
    if ops == [] then []
    else match ops[0]
      case PutOp(x) => [x] + Puts(ops[1..])
      case TakeOp => Puts(ops[1..])
  }

  /** FIFO: what is taken, followed by what is left, is exactly what was in
      the queue followed by what was put, in put order. */
  lemma {:induction false} Fifo<T>(q: seq<T>, ops: seq<QueueOp<T>>)
    requires NoTakeFromEmpty(q, ops)
    ensures Run(q, ops).1 + Run(q, ops).0 == q + Puts(ops)
    decreases |ops|
  {
    if ops != [] {
      match ops[0]
      case PutOp(x) =>
        Fifo(q + [x], ops[1..]);
        assert (q + [x]) + Puts(ops[1..]) == q + ([x] + Puts(ops[1..]));
      case TakeOp =>
        Fifo(q[1..], ops[1..]);
        var (rest, taken) := Run(q[1..], ops[1..]);
        assert Run(q, ops) == (rest, [q[0]] + taken);
        assert Puts(ops) == Puts(ops[1..]);
        calc {
          Run(q, ops).1 + Run(q, ops).0;
          ([q[0]] + taken) + rest;
          [q[0]] + (taken + rest);
          [q[0]] + (q[1..] + Puts(ops[1..]));
          q + Puts(ops);
        }
    }
  }
}
