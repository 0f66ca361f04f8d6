/** The bounded first-in first-out job queue. */
module Queues {
  import opened Jobs
  import opened Results

  const CAPACITY: nat := 1024

  datatype QueueError = QueueClosed | QueueFull

  datatype Dequeued<+T> = Got(item: T) | NothingYet | Drained

  function EnqueueOutcome<T>(contents: seq<T>, closed: bool): Outcome<QueueError> {
    if closed then Fail(QueueClosed)
    else if |contents| < CAPACITY then Pass
    else Fail(QueueFull)
  }

  function AfterEnqueue<T>(contents: seq<T>, closed: bool, item: T): seq<T> {
    if EnqueueOutcome(contents, closed).Pass? then contents + [item] else contents
  }

  function DequeueOutcome<T>(contents: seq<T>, closed: bool): Dequeued<T> {
    if |contents| > 0 then Got(contents[0]) else if closed then Drained else NothingYet
  }

  function AfterDequeue<T>(contents: seq<T>): seq<T> {
    if |contents| > 0 then contents[1..] else contents
  }

  // ---- Every history of a queue ----

  datatype QueueOp<T> = Put(item: T) | Take | Shut

  /** `accepted` and `taken` record what went in and what came out. */
  datatype History<T> = History(contents: seq<T>, closed: bool, accepted: seq<T>, taken: seq<T>)

  function Operate<T>(h: History<T>, op: QueueOp<T>): History<T> {
    match op
    case Put(x) =>
      h.(contents := AfterEnqueue(h.contents, h.closed, x),
         accepted := if EnqueueOutcome(h.contents, h.closed).Pass? then h.accepted + [x] else h.accepted)
    case Take =>
      var d := DequeueOutcome(h.contents, h.closed);
      h.(contents := AfterDequeue(h.contents),
         taken := if d.Got? then h.taken + [d.item] else h.taken)
    case Shut => h.(closed := true)
  }

  function OperateAll<T>(h: History<T>, ops: seq<QueueOp<T>>): History<T> {
    if ops == [] then h else Operate(OperateAll(h, ops[..|ops| - 1]), ops[|ops| - 1])
  }

  /** Items leave in the order they were accepted, none is lost or duplicated,
      and the buffer never holds more than its capacity. */
  lemma {:induction false} FirstInFirstOut<T>(h: History<T>, ops: seq<QueueOp<T>>)
    requires h.accepted == h.taken + h.contents && |h.contents| <= CAPACITY
    ensures var h' := OperateAll(h, ops);
      h'.accepted == h'.taken + h'.contents && |h'.contents| <= CAPACITY
  {
    if ops != [] {
      FirstInFirstOut(h, ops[..|ops| - 1]);
      var m := OperateAll(h, ops[..|ops| - 1]);
      match ops[|ops| - 1] {
        case Put(x) =>
          assert m.taken + m.contents + [x] == m.taken + (m.contents + [x]);
        case Take =>
          if m.contents != [] {
            assert m.contents == [m.contents[0]] + m.contents[1..];
          }
        case Shut =>
      }
    }
  }

  /** Nothing is accepted once the queue is closed, and it stays closed. */
  lemma {:induction false} NothingAcceptedAfterClose<T>(h: History<T>, ops: seq<QueueOp<T>>)
    requires h.closed
    ensures OperateAll(h, ops).closed && OperateAll(h, ops).accepted == h.accepted
  {
    if ops != [] {
      NothingAcceptedAfterClose(h, ops[..|ops| - 1]);
    }
  }

  /** `contents` is the channel's buffer. */
  class InMemoryQueue {
    var contents: seq<Job>
    var closed: bool

    constructor ()
      ensures contents == [] && !closed
    {
      contents, closed := [], false;
    }

    method Enqueue(job: Job) returns (r: Outcome<QueueError>)
      modifies this`contents
      ensures r == if closed then Fail(QueueClosed) else if |old(contents)| >= 1024 then Fail(QueueFull) else Pass
      ensures contents == old(contents) + (if r.Pass? then [job] else [])
      ensures r == EnqueueOutcome(old(contents), closed)
      ensures contents == AfterEnqueue(old(contents), closed, job)
    {
      if closed {
        return Fail(QueueClosed);
      }
      if |contents| < CAPACITY {
        contents := contents + [job];
        return Pass;
      }
      r := Fail(QueueFull);
    }

    method Dequeue() returns (r: Dequeued<Job>)
      modifies this`contents
      ensures r.Got? ==> old(contents) == [r.item] + contents
      ensures !r.Got? ==> old(contents) == [] == contents && (r.Drained? <==> closed)
      ensures r == DequeueOutcome(old(contents), closed)
      ensures contents == AfterDequeue(old(contents))
    {
      if |contents| > 0 {
        r := Got(contents[0]);
        contents := contents[1..];
      } else if closed {
        r := Drained;
      } else {
        r := NothingYet;
      }
    }

    method Size() returns (n: nat)
      ensures n == |contents|
    {
      n := |contents|;
    }

    method Close()
      modifies this`closed
      ensures closed
    {
      if !closed {
        closed := true;
      }
    }
  }
}
