/** The execution plane's own methods: submission, and one turn of the worker. */
module Planes {
  import opened Graphs
  import opened Jobs
  import opened Results
  import opened Queues
  import opened Schedulers
  import opened JobDag

  datatype PlaneError = BadGraph(dag: DagError) | NotScheduled(id: Id, cause: QueueError)

  /** The record of a job after one attempt: `failure` is the handler's error
      and `result` what it left in the job's result. */
  function AfterAttempt(j: Record, beginAt: Time, result: string, failure: Option<string>,
                        endAt: Time, retryFrom: Time): Record
  {
    var handled := Begin(j, beginAt).(result := result);
    match failure
    case None => Succeed(handled, endAt)
    case Some(e) => FailAttempt(handled, e, endAt, retryFrom)
  }

  /** Only a job that is to be retried goes back to the scheduler. */
  function AfterTurn<T>(l: Lines<T>, closed: bool, item: T, j: Record, scheduleAt: Time): Lines<T> {
    if j.state == Retrying then AfterSchedule(l, closed, item, Due(j, scheduleAt)) else l
  }

  /** `items` are the graph's jobs in the given order, `due` whether each is due
      when its turn comes. */
  ghost predicate JobsInOrder(dag: DAG, order: seq<Id>, clock: nat -> Time, items: seq<Job>, due: seq<bool>)
    reads dag, items
  {
    && |items| == |due| == |order|
    && (forall i :: 0 <= i < |order| ==> order[i] in dag.nodes && items[i] == dag.nodes[order[i]])
    && (forall i :: 0 <= i < |order| ==> due[i] == Due(items[i].Value(), clock(i)))
  }

  lemma {:induction false} ReadJobs(dag: DAG, order: seq<Id>, clock: nat -> Time)
    returns (items: seq<Job>, due: seq<bool>)
    requires (set x | x in order) <= dag.nodes.Keys
    ensures JobsInOrder(dag, order, clock, items, due)
    decreases |order|
  {
    items, due := [], [];
    if order != [] {
      var n := |order| - 1;
      items, due := ReadJobs(dag, order[..n], clock);
      assert order[n] in (set x | x in order);
      var job := dag.nodes[order[n]];
      items, due := items + [job], due + [Due(job.Value(), clock(n))];
    }
  }

  /** The jobs were handed to the scheduler in this order up to the first
      refusal, which is the one reported. */
  ghost predicate ScheduledInOrder(before: Lines<Job>, after: Lines<Job>, closed: bool, order: seq<Id>,
                                   items: seq<Job>, due: seq<bool>, r: Outcome<PlaneError>)
    requires |items| == |due| == |order|
  {
    var (lines, k) := ScheduleAll(before, closed, items, due);
    var refusal := EnqueueOutcome(lines.contents, closed);
    && after == lines
    && k <= |order|
    && (k == |order| ==> r.Pass?)
    && (k < |order| ==> refusal.Fail? && r == Fail(NotScheduled(order[k], refusal.error)))
  }

  /** What a submission leaves: a prefix of the jobs, the due ones in the queue and
      the others waiting, both in order. It passes if and only if that is all of
      them; otherwise the job after the prefix was due, a closed or full queue
      refused it, and the error says which job and why. */
  lemma SubmissionStops(before: Lines<Job>, after: Lines<Job>, closed: bool, order: seq<Id>,
                        items: seq<Job>, due: seq<bool>, r: Outcome<PlaneError>) returns (k: nat)
    requires |items| == |due| == |order| && ScheduledInOrder(before, after, closed, order, items, due, r)
    ensures k <= |order| && (r.Pass? <==> k == |order|)
    ensures after.contents == before.contents + Flagged(items[..k], due[..k], true)
    ensures after.pending == before.pending + Flagged(items[..k], due[..k], false)
    ensures r.Fail? ==>
      && due[k] && (closed || |after.contents| >= 1024)
      && r == Fail(NotScheduled(order[k], if closed then QueueClosed else QueueFull))
  {
    ScheduleAllTakesPrefix(before, closed, items, due);
    k := ScheduleAll(before, closed, items, due).1;
  }

  class Plane {
    var jobs: map<Id, Job>
    const queue: InMemoryQueue
    const scheduler: Scheduler

    ghost predicate Valid() {
      scheduler.queue == queue
    }

    ghost function TheLines(): Lines<Job>
      reads queue, scheduler
    {
      Lines(queue.contents, scheduler.pending)
    }

    constructor ()
      ensures Valid() && fresh(queue) && fresh(scheduler)
      ensures jobs == map[] && TheLines() == Lines([], []) && !queue.closed
    {
      jobs := map[];
      var q := new InMemoryQueue();
      queue := q;
      scheduler := new Scheduler(q);
    }

    method Submit(job: Job, now: Time) returns (r: Outcome<QueueError>)
      requires Valid()
      modifies this`jobs, scheduler`pending, queue`contents
      ensures jobs == old(jobs)[job.id := job]
      ensures r == ScheduleOutcome(old(TheLines()), queue.closed, Due(job.Value(), now))
      ensures TheLines() == AfterSchedule(old(TheLines()), queue.closed, job, Due(job.Value(), now))
    {
      jobs := jobs[job.id := job];
      r := scheduler.Schedule(job, now);
    }

    /** Register every job, then schedule in topological order and stop at the
        first error. `clock(i)` is the time read while scheduling the i-th job;
        the ghost results are the order, its jobs and which of them were due. */
    method SubmitDAG(dag: DAG, clock: nat -> Time)
      returns (r: Outcome<PlaneError>, ghost order: seq<Id>, ghost items: seq<Job>, ghost due: seq<bool>)
      requires Valid() && Closed(dag.G())
      modifies this`jobs, scheduler`pending, queue`contents
      ensures !Acyclic(dag.G()) ==>
        r == Fail(BadGraph(ContainsCycle)) && jobs == old(jobs) && TheLines() == old(TheLines())
      ensures Acyclic(dag.G()) ==>
        && IsTopologicalOrder(dag.G(), order)
        && jobs == old(jobs) + dag.nodes
        && JobsInOrder(dag, order, clock, items, due)
        && ScheduledInOrder(old(TheLines()), TheLines(), queue.closed, order, items, due, r)
    {
      order, items, due := [], [], [];
      var sorted := dag.TopologicalSort();
      if sorted.Err? {
        return Fail(BadGraph(sorted.error)), [], [], [];
      }
      order := sorted.value;
      r, items, due := SubmitSorted(dag, sorted.value, clock);
    }

    /** The registration loop, then the scheduling loop. */
    method SubmitSorted(dag: DAG, order: seq<Id>, clock: nat -> Time)
      returns (r: Outcome<PlaneError>, ghost items: seq<Job>, ghost due: seq<bool>)
      requires Valid() && (set x | x in order) == dag.nodes.Keys
      modifies this`jobs, scheduler`pending, queue`contents
      ensures jobs == old(jobs) + dag.nodes
      ensures JobsInOrder(dag, order, clock, items, due)
      ensures ScheduledInOrder(old(TheLines()), TheLines(), queue.closed, order, items, due, r)
    {
      items, due := ReadJobs(dag, order, clock);
      Register(dag, order);
      r := ScheduleInOrder(dag, order, clock, items, due);
    }

    /** The scheduling loop. */
    method ScheduleInOrder(dag: DAG, order: seq<Id>, clock: nat -> Time,
                           ghost items: seq<Job>, ghost due: seq<bool>)
      returns (r: Outcome<PlaneError>)
      requires Valid() && JobsInOrder(dag, order, clock, items, due)
      modifies scheduler`pending, queue`contents
      ensures ScheduledInOrder(old(TheLines()), TheLines(), queue.closed, order, items, due, r)
    {
      ghost var start := TheLines();
      ghost var lines := start;
      for i := 0 to |order|
        invariant TheLines() == lines
        invariant (lines, i as nat) == ScheduleAll(start, queue.closed, items[..i], due[..i])
      {
        ScheduleOneMore(start, queue.closed, items, due, i);
        var outcome := scheduler.Schedule(dag.nodes[order[i]], clock(i));
        if outcome.Fail? {
          StoppedAt(start, queue.closed, items, due, i);
          return Fail(NotScheduled(order[i], outcome.error));
        }
        lines := AfterSchedule(lines, queue.closed, items[i], due[i]);
      }
      assert items[..|order|] == items && due[..|order|] == due;
      r := Pass;
    }

    /** The registration loop, under the plane's lock. */
    method Register(dag: DAG, order: seq<Id>)
      requires (set x | x in order) == dag.nodes.Keys
      modifies this`jobs
      ensures jobs == old(jobs) + dag.nodes
    {
      for i := 0 to |order|
        invariant jobs == old(jobs) + (map id | id in dag.nodes && id in order[..i] :: dag.nodes[id])
      {
        assert order[..i + 1] == order[..i] + [order[i]];
        assert order[i] in (set x | x in order);
        if order[i] in dag.nodes {
          jobs := jobs[order[i] := dag.nodes[order[i]]];
        }
      }
      assert order[..|order|] == order;
      assert forall id :: id in dag.nodes ==> id in (set x | x in order);
    }

    /** One turn of the worker loop; the handler's answer and the four clock
        readings come from outside. */
    method ProcessNext(beginAt: Time, result: string, failure: Option<string>,
                       endAt: Time, retryFrom: Time, scheduleAt: Time)
      returns (taken: Option<Job>)
      requires Valid()
      modifies scheduler`pending, queue`contents, queue.contents
      ensures old(queue.contents) == [] ==> taken == None && TheLines() == old(TheLines())
      ensures old(queue.contents) != [] ==> taken == Some(old(queue.contents[0]))
      ensures taken.Some? ==>
        var job := taken.value;
        && job.Value() == AfterAttempt(old(job.Value()), beginAt, result, failure, endAt, retryFrom)
        && TheLines() == AfterTurn(old(Lines(queue.contents[1..], scheduler.pending)), queue.closed,
                                   job, job.Value(), scheduleAt)
      ensures forall j: Job :: j in old(queue.contents) && taken != Some(j) ==> unchanged(j)
    {
      var next := queue.Dequeue();
      if !next.Got? {
        return None;
      }
      taken := Some(next.item);
      Attempt(next.item, beginAt, result, failure, endAt, retryFrom, scheduleAt);
    }

    /** The rest of the turn, for the job just taken from the queue. */
    method Attempt(job: Job, beginAt: Time, result: string, failure: Option<string>,
                   endAt: Time, retryFrom: Time, scheduleAt: Time)
      requires Valid()
      modifies scheduler`pending, queue`contents, job
      ensures job.Value() == AfterAttempt(old(job.Value()), beginAt, result, failure, endAt, retryFrom)
      ensures TheLines() == AfterTurn(old(TheLines()), queue.closed, job, job.Value(), scheduleAt)
    {
      job.state := Running;
      job.attempts := job.attempts + 1;
      job.startedAt := beginAt;
      job.result := result;
      match failure {
        case Some(e) =>
          job.error := e;
          if job.attempts < job.maxAttempts {
            job.state := Retrying;
            job.finishedAt := endAt;
            job.runAfter := retryFrom + Backoff(job.attempts);
            var ignored := scheduler.Schedule(job, scheduleAt);
          } else {
            job.state := Failed;
            job.finishedAt := endAt;
          }
        case None =>
          job.state := Completed;
          job.finishedAt := endAt;
      }
    }
  }

  lemma ScheduleOneMore<T>(l: Lines<T>, closed: bool, items: seq<T>, due: seq<bool>, k: nat)
    requires |due| == |items| && k < |items|
    requires ScheduleAll(l, closed, items[..k], due[..k]).1 == k
    ensures var m := ScheduleAll(l, closed, items[..k], due[..k]).0;
      ScheduleOutcome(m, closed, due[k]).Pass? ==>
        ScheduleAll(l, closed, items[..k + 1], due[..k + 1]) == (AfterSchedule(m, closed, items[k], due[k]), k + 1)
  {
    assert items[..k + 1][..k] == items[..k] && due[..k + 1][..k] == due[..k];
  }

  lemma StoppedAt<T>(l: Lines<T>, closed: bool, items: seq<T>, due: seq<bool>, k: nat)
    requires |due| == |items| && k < |items|
    requires ScheduleAll(l, closed, items[..k], due[..k]).1 == k
    requires ScheduleOutcome(ScheduleAll(l, closed, items[..k], due[..k]).0, closed, due[k]).Fail?
    ensures ScheduleAll(l, closed, items, due) == ScheduleAll(l, closed, items[..k], due[..k])
  {
    var n := |items| - 1;
    if n > k {
      assert items[..n][..k] == items[..k] && due[..n][..k] == due[..k];
      StoppedAt(l, closed, items[..n], due[..n], k);
    }
  }
}
