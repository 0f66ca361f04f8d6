/** Delayed delivery: jobs wait in `pending` until due, then move to the queue. */
module Schedulers {
  import opened Collections
  import opened Jobs
  import opened Results
  import opened Queues

  // ---- Order-preserving partition ----

  function Select<T(==)>(s: seq<T>, chosen: set<T>): seq<T> {
    if s == [] then []
    else Select(s[..|s| - 1], chosen) + (if s[|s| - 1] in chosen then [s[|s| - 1]] else [])
  }

  function Reject<T(==)>(s: seq<T>, chosen: set<T>): seq<T> {
    if s == [] then []
    else Reject(s[..|s| - 1], chosen) + (if s[|s| - 1] in chosen then [] else [s[|s| - 1]])
  }

  /** No occurrence is lost, duplicated or put on the wrong side. */
  lemma {:induction false} PartitionCounts<T>(s: seq<T>, chosen: set<T>, x: T)
    ensures multiset(Select(s, chosen))[x] == if x in chosen then multiset(s)[x] else 0
    ensures multiset(Reject(s, chosen))[x] == if x in chosen then 0 else multiset(s)[x]
  {
    if s != [] {
      var t, last := s[..|s| - 1], s[|s| - 1];
      PartitionCounts(t, chosen, x);
      assert s == t + [last];
      CountSnoc(t, last, x);
      if last in chosen {
        assert Reject(s, chosen) == Reject(t, chosen);
        CountSnoc(Select(t, chosen), last, x);
      } else {
        assert Select(s, chosen) == Select(t, chosen);
        CountSnoc(Reject(t, chosen), last, x);
      }
    }
  }

  lemma CountSnoc<T>(s: seq<T>, last: T, x: T)
    ensures multiset(s + [last])[x] == multiset(s)[x] + OneIf(last == x)
  {
  }

  lemma {:induction false} PartitionKeepsOrder<T>(s: seq<T>, chosen: set<T>)
    ensures IsSubsequence(Select(s, chosen), s) && IsSubsequence(Reject(s, chosen), s)
  {
    if s == [] {
      assert Embeds(s, s, []);
    } else {
      var t, x := s[..|s| - 1], s[|s| - 1];
      PartitionKeepsOrder(t, chosen);
      assert s == t + [x];
      SubsequenceGrows(Select(t, chosen), t, x);
      SubsequenceGrows(Reject(t, chosen), t, x);
      assert Select(t, chosen) + [] == Select(t, chosen);
      assert Reject(t, chosen) + [] == Reject(t, chosen);
    }
  }

  // ---- Enqueueing a batch ----

  function EnqueueAll<T>(contents: seq<T>, closed: bool, batch: seq<T>): seq<T> {
    if batch == [] then contents
    else AfterEnqueue(EnqueueAll(contents, closed, batch[..|batch| - 1]), closed, batch[|batch| - 1])
  }

  /** An open queue takes the longest prefix of the batch it has room for; the
      rest is lost. A closed queue takes nothing. */
  lemma {:induction false} EnqueueAllTakesPrefix<T>(contents: seq<T>, closed: bool, batch: seq<T>)
    requires |contents| <= 1024
    ensures var room := 1024 - |contents|;
      EnqueueAll(contents, closed, batch)
        == contents + (if closed then [] else if |batch| <= room then batch else batch[..room])
  {
    if batch != [] {
      var room := CAPACITY - |contents|;
      var init := batch[..|batch| - 1];
      EnqueueAllTakesPrefix(contents, closed, init);
      if !closed {
        if |batch| <= room {
          assert contents + init + [batch[|batch| - 1]] == contents + batch;
        } else if |init| > room {
          assert init[..room] == batch[..room];
        } else {
          assert init == batch[..room];
        }
      }
    }
  }

  // ---- Scheduling one job and a sequence of jobs ----

  datatype Lines<+T> = Lines(contents: seq<T>, pending: seq<T>)

  function ScheduleOutcome<T>(l: Lines<T>, closed: bool, due: bool): Outcome<QueueError> {
    if due then EnqueueOutcome(l.contents, closed) else Pass
  }

  function AfterSchedule<T>(l: Lines<T>, closed: bool, item: T, due: bool): Lines<T> {
    if due then l.(contents := AfterEnqueue(l.contents, closed, item))
    else l.(pending := l.pending + [item])
  }

  /** Schedule in order and stop at the first error; also how many succeeded. */
  function ScheduleAll<T>(l: Lines<T>, closed: bool, items: seq<T>, due: seq<bool>): (Lines<T>, nat)
    requires |due| == |items|
  {
    if items == [] then (l, 0)
    else
      var n := |items| - 1;
      var before := ScheduleAll(l, closed, items[..n], due[..n]);
      if before.1 == n && ScheduleOutcome(before.0, closed, due[n]).Pass?
      then (AfterSchedule(before.0, closed, items[n], due[n]), n + 1)
      else before
  }

  /** The items whose flag is `flag`, in order. */
  function Flagged<T>(items: seq<T>, flags: seq<bool>, flag: bool): seq<T>
    requires |flags| == |items|
  {
    if items == [] then []
    else
      var n := |items| - 1;
      Flagged(items[..n], flags[..n], flag) + (if flags[n] == flag then [items[n]] else [])
  }

  /** A prefix is scheduled, in order, the due jobs to the queue and the others
      to the waiting list; a shorter prefix means the next job was due and the
      queue refused it. */
  lemma {:induction false} ScheduleAllTakesPrefix<T>(l: Lines<T>, closed: bool, items: seq<T>, due: seq<bool>)
    requires |due| == |items|
    ensures var (l', k) := ScheduleAll(l, closed, items, due);
      && k <= |items|
      && l'.contents == l.contents + Flagged(items[..k], due[..k], true)
      && l'.pending == l.pending + Flagged(items[..k], due[..k], false)
      && (k < |items| ==> due[k] && EnqueueOutcome(l'.contents, closed).Fail?)
  {
    if items != [] {
      var n := |items| - 1;
      ScheduleAllTakesPrefix(l, closed, items[..n], due[..n]);
      var (m, j) := ScheduleAll(l, closed, items[..n], due[..n]);
      var (l', k) := ScheduleAll(l, closed, items, due);
      assert items[..n][..j] == items[..j] && due[..n][..j] == due[..j];
      if k == n + 1 {
        assert items[..k] == items && due[..k] == due;
        assert items[..n][..n] == items[..n] && due[..n][..n] == due[..n];
      }
    }
  }

  class Scheduler {
    const queue: InMemoryQueue
    var pending: seq<Job>

    constructor (queue: InMemoryQueue)
      ensures this.queue == queue && pending == []
    {
      this.queue, pending := queue, [];
    }

    /** The pending jobs that a flush at time `now` delivers. */
    function DueJobs(now: Time): set<Job>
      reads this, pending
    {
      set j | j in pending && now >= j.runAfter
    }

    method Schedule(job: Job, now: Time) returns (r: Outcome<QueueError>)
      modifies this`pending, queue`contents
      ensures job.runAfter == 0 || now >= job.runAfter ==>
        && pending == old(pending)
        && (r.Pass? <==> !queue.closed && |old(queue.contents)| < 1024)
        && queue.contents == old(queue.contents) + (if r.Pass? then [job] else [])
      ensures job.runAfter != 0 && now < job.runAfter ==>
        r.Pass? && pending == old(pending) + [job] && queue.contents == old(queue.contents)
      ensures r == ScheduleOutcome(old(Lines(queue.contents, pending)), queue.closed, Due(job.Value(), now))
      ensures Lines(queue.contents, pending)
           == AfterSchedule(old(Lines(queue.contents, pending)), queue.closed, job, Due(job.Value(), now))
    {
      if job.runAfter == 0 || now >= job.runAfter {
        r := queue.Enqueue(job);
        return;
      }
      pending := pending + [job];
      r := Pass;
    }

    /** One tick: partition under the lock, then enqueue with errors ignored. Every
        occurrence of a job that is due is offered to the queue, every other one
        goes on waiting, both in their order. */
    method Flush(now: Time) returns (ghost offered: seq<Job>)
      modifies this`pending, queue`contents
      ensures SplitByTime(old(pending), pending, offered, now)
      ensures queue.contents == EnqueueAll(old(queue.contents), queue.closed, offered)
      ensures pending == Reject(old(pending), old(DueJobs(now))) && offered == Select(old(pending), old(DueJobs(now)))
    {
      hide SplitByTime, Select, Reject;
      var ready, remaining := Partition(now);
      offered := ready;
      pending := remaining;
      EnqueueReady(ready);
    }

    /** The second loop: errors are ignored. */
    method EnqueueReady(ready: seq<Job>)
      modifies queue`contents
      ensures queue.contents == EnqueueAll(old(queue.contents), queue.closed, ready)
    {
      for i := 0 to |ready|
        invariant queue.contents == EnqueueAll(old(queue.contents), queue.closed, ready[..i])
      {
        assert ready[..i + 1][..i] == ready[..i];
        var ignored := queue.Enqueue(ready[i]);
      }
      assert ready[..|ready|] == ready;
    }

    /** The loop over the waiting list. */
    method Partition(now: Time) returns (ready: seq<Job>, remaining: seq<Job>)
      ensures SplitByTime(pending, remaining, ready, now)
      ensures ready == Select(pending, DueJobs(now)) && remaining == Reject(pending, DueJobs(now))
    {
      ready, remaining := [], [];
      ghost var due := DueJobs(now);
      for i := 0 to |pending|
        invariant ready == Select(pending[..i], due) && remaining == Reject(pending[..i], due)
      {
        assert pending[..i + 1][..i] == pending[..i];
        if now >= pending[i].runAfter {
          ready := ready + [pending[i]];
        } else {
          remaining := remaining + [pending[i]];
        }
      }
      assert pending[..|pending|] == pending;
      DueAreSplitOff(pending, due, now);
    }
  }

  /** Each waiting job is kept if its time has not come and offered if it has, as
      often as it was waiting and in the same order. */
  ghost predicate SplitByTime(waiting: seq<Job>, kept: seq<Job>, offered: seq<Job>, now: Time)
    reads waiting
  {
    && (forall j :: j in waiting ==>
          && multiset(kept)[j] == (if now < j.runAfter then multiset(waiting)[j] else 0)
          && multiset(offered)[j] == (if now < j.runAfter then 0 else multiset(waiting)[j]))
    && IsSubsequence(kept, waiting) && IsSubsequence(offered, waiting)
  }

  lemma DueAreSplitOff(waiting: seq<Job>, due: set<Job>, now: Time)
    requires forall j :: j in waiting ==> (j in due <==> now >= j.runAfter)
    ensures SplitByTime(waiting, Reject(waiting, due), Select(waiting, due), now)
  {
    hide Select, Reject, IsSubsequence;
    var kept: seq<Job>, offered: seq<Job> := Reject<Job>(waiting, due), Select<Job>(waiting, due);
    forall j | j in waiting
      ensures multiset(kept)[j] == (if now < j.runAfter then multiset(waiting)[j] else 0)
      ensures multiset(offered)[j] == (if now < j.runAfter then 0 else multiset(waiting)[j])
    {
      PartitionCounts<Job>(waiting, due, j);
    }
    PartitionKeepsOrder<Job>(waiting, due);
  }
}
