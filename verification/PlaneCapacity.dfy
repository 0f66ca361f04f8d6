/** How many unfinished jobs the plane can carry without losing one: as many as
    the queue holds, and not one more. */
module PlaneCapacity {
  import opened Collections
  import opened Graphs
  import opened Jobs
  import opened Queues
  import opened Schedulers
  import opened PlaneSteps
  import opened PlaneConservation
  import opened PlaneLifecycle
  import opened PlaneGuarantees
  import opened PlaneDependencies
  import opened PlaneRefinement

  /** All records become due one tick after `now`. */
  predicate DueNextTick(records: seq<Record>, now: Time) {
    forall a :: 0 <= a < |records| ==> !Due(records[a], now) && records[a].runAfter == now + 1
  }

  /** The scheduler has put all of the first `n` jobs on its waiting list. */
  lemma {:induction false} HoldAll(records: seq<Record>, now: Time, n: nat) returns (w: World)
    requires FreshRecords(map[], records) && DueNextTick(records, now) && n <= |records|
    ensures Reachable(w) && WorkedOff(w, records, now, n)
    ensures w.jobs == Registered(map[], records) && w.ticker == Idle && w.dropped == {}
    ensures w.pending == IdsOf(records)[..n]
  {
    hide WorkedOff, FreshRecords, Registered, Reachable;
    if n == 0 {
      w := RegisterFirst(records, now);
    } else {
      w := HoldAll(records, now, n - 1);
      w := WorkOffDelayed(w, records, now, n - 1);
      assert IdsOf(records)[..n] == IdsOf(records)[..n - 1] + [records[n - 1].id];
    }
  }

  lemma {:induction false} SelectAll(s: seq<Id>, chosen: set<Id>)
    requires forall x :: x in s ==> x in chosen
    ensures Select(s, chosen) == s
  {
    if s != [] {
      SelectAll(s[..|s| - 1], chosen);
    }
  }

  /** An empty queue refuses the last of more than 1024 jobs flushed at once. */
  lemma LastIsRefused(batch: seq<Id>)
    requires |batch| > 1024
    ensures batch[|batch| - 1] in Refused([], false, batch)
  {
    EnqueueAllTakesPrefix([], false, batch[..|batch| - 1]);
  }

  /** More than 1024 jobs that become due at once: each was accepted without an
      error, the queue is open, and yet one of them is lost. */
  lemma LostAboveCapacity(records: seq<Record>, now: Time) returns (w: World, j: Id)
    requires FreshRecords(map[], records) && DueNextTick(records, now) && |records| > 1024
    ensures Reachable(w) && !w.closed && j in w.dropped
    ensures w.submitters == [Submitter(IdsOf(records), |records|, Undecided, false, records, now)]
    ensures w.jobs == Registered(map[], records)
  {
    var v := HoldAll(records, now, |records|);
    StepReachable(v, Controls(Tick(now + 1)));
    v := v.(now := now + 1);
    RegisteredTable(map[], records);
    forall x | x in v.pending ensures x in DueIds(v) {
      var a :| 0 <= a < |records| && IdsOf(records)[a] == x;
      assert v.jobs[records[a].id] == records[a];
    }
    SelectAll(v.pending, DueIds(v));
    LastIsRefused(v.pending);
    FlushIsSimulated(v);
    w, j := AfterFlush(v), v.pending[|v.pending| - 1];
    LeadsReachable(v, w);
  }

  // ---- The bound is exact ----

  ghost predicate WithinLimit(ws: seq<World>, limit: nat) {
    forall i :: 0 <= i < |ws| ==> |Live(ws[i])| <= limit
  }

  /** No open queue has refused a job. */
  ghost predicate LosesNothingWhileOpen(ws: seq<World>) {
    forall i :: 0 <= i < |ws| && !ws[i].closed ==> ws[i].dropped == {}
  }

  /** Every run with at most `limit` unfinished jobs at once. */
  ghost predicate LimitIsSafe(limit: nat) {
    forall ws, steps :: IsRun(ws, steps) && WithinLimit(ws, limit) ==> LosesNothingWhileOpen(ws)
  }

  lemma {:induction false} JobsOnlyGrow(ws: seq<World>, steps: seq<Step>, n: nat, m: nat)
    requires IsRun(ws, steps) && n <= m < |ws|
    ensures ws[n].jobs.Keys <= ws[m].jobs.Keys
  {
    hide Do, Enabled, Inv;
    if n < m {
      JobsOnlyGrow(ws, steps, n, m - 1);
      InvHolds(ws, steps, m - 1);
      forall j | j in ws[m - 1].jobs ensures j in ws[m].jobs {
        LegalStep(ws[m - 1], steps[m - 1], j);
      }
    }
  }

  /** A run that ends with few jobs never had many unfinished ones. */
  lemma FewJobsStayWithin(ws: seq<World>, steps: seq<Step>, limit: nat)
    requires IsRun(ws, steps) && |ws[|steps|].jobs.Keys| <= limit
    ensures WithinLimit(ws, limit)
  {
    forall i | 0 <= i < |ws| ensures |Live(ws[i])| <= limit {
      JobsOnlyGrow(ws, steps, i, |steps|);
      SubsetSize(Live(ws[i]), ws[|steps|].jobs.Keys);
    }
  }

  /** The i-th of a series of distinct identifiers. */
  function Name(i: nat): Id {
    seq(i, k => 'j')
  }

  function DelayedJob(i: nat, now: Time): Record {
    Blank(Name(i), "", "", now).(runAfter := now + 1)
  }

  function ManyDelayed(n: nat, now: Time): (records: seq<Record>)
    ensures |records| == n
  {
    seq(n, i requires 0 <= i < n => DelayedJob(i, now))
  }

  lemma {:induction false} TableSize(records: seq<Record>)
    ensures |Registered(map[], records).Keys| <= |records|
  {
    if records != [] {
      var init, last := records[..|records| - 1], records[|records| - 1];
      TableSize(init);
      assert Registered(map[], records).Keys == Registered(map[], init).Keys + {last.id};
    }
  }

  /** No run with at most `limit` unfinished jobs at once loses a job to an open
      queue, if and only if the limit is at most 1024. */
  lemma CapacityIsExact(limit: nat)
    ensures LimitIsSafe(limit) <==> limit <= 1024
  {
    if limit <= CAPACITY {
      forall ws: seq<World>, steps | IsRun(ws, steps) && WithinLimit(ws, limit) ensures LosesNothingWhileOpen(ws) {
        forall i | 0 <= i < |ws| && !ws[i].closed ensures ws[i].dropped == {} {
          NothingLostBelowCapacity(ws, steps, i);
        }
      }
    } else {
      var records := ManyDelayed(CAPACITY + 1, 1);
      var w, j := LostAboveCapacity(records, 1);
      TableSize(records);
      UnsafeLimit(w, j, limit);
    }
  }

  lemma UnsafeLimit(w: World, j: Id, limit: nat)
    requires Reachable(w) && !w.closed && j in w.dropped && |w.jobs.Keys| <= limit
    ensures !LimitIsSafe(limit)
  {
    var ws, steps :| IsRun(ws, steps) && ws[|steps|] == w;
    FewJobsStayWithin(ws, steps, limit);
    assert !LosesNothingWhileOpen(ws);
  }
}
