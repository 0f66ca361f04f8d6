/** When dependencies are respected: a job waits for the first attempts of
    exactly those ancestors that were due when the graph was submitted, and for
    no ancestor's completion. */
module PlaneDependencies {
  import opened Graphs
  import opened Jobs
  import opened Queues
  import opened PlaneSteps
  import opened PlaneLifecycle
  import opened PlaneOrder

  predicate Started(w: World, j: Id) {
    j in w.jobs && w.jobs[j].attempts >= 1
  }

  /** The submitter registered these records at this time. */
  predicate Submitted(s: Submitter, records: seq<Record>, now: Time) {
    s.records == records && s.at == now
  }

  // ---- The guarantee ----

  lemma ReachableOrdered(w: World)
    requires Reachable(w)
    ensures Ordered(w)
  {
    var ws, steps :| IsRun(ws, steps) && ws[|steps|] == w;
    OrderedHolds(ws, steps, |steps|);
  }

  lemma EarlierDueJobFirst(w: World, m: nat, i: nat, k: nat)
    requires Reachable(w) && m < |w.submitters| && i < k < |w.submitters[m].order|
    requires WasDue(w.submitters[m], i) && Started(w, w.submitters[m].order[k])
    ensures FirstDone(w, w.submitters[m].order[i])
  {
    ReachableOrdered(w);
    assert SubmitterOrdered(w, w.submitters[m]);
    assert WaitsFor(w, w.submitters[m], i, k);
  }

  /** An ancestor comes before its descendant in every order of submission. */
  lemma AncestorIsEarlier(g: Graph, order: seq<Id>, u: Id, v: Id) returns (i: nat, k: nat)
    requires IsTopologicalOrder(g, order) && v in g.nodes && Reaches(g, u, v) && u != v
    ensures i < k < |order| && order[i] == u && order[k] == v
  {
    assert v in (set x | x in order);
    k :| 0 <= k < |order| && order[k] == v;
    AncestorsPrecede(g, order, u, k);
    i :| 0 <= i < k && order[i] == u;
  }

  /** Once a job of a submitted graph has started, the first attempt of each of
      its ancestors that was due at submission has ended. */
  lemma DependenciesFirst(w: World, m: nat, g: Graph, u: Id, v: Id)
    requires Reachable(w) && m < |w.submitters| && IsTopologicalOrder(g, w.submitters[m].order)
    requires v in g.nodes && Reaches(g, u, v) && u != v && Started(w, v)
    requires exists i :: 0 <= i < |w.submitters[m].order| && w.submitters[m].order[i] == u && WasDue(w.submitters[m], i)
    ensures FirstDone(w, u)
  {
    var s := w.submitters[m];
    var a :| 0 <= a < |s.order| && s.order[a] == u && WasDue(s, a);
    var i, k := AncestorIsEarlier(g, s.order, u, v);
    ReachableOrdered(w);
    assert SubmitterOrdered(w, s) && a == i;
    EarlierDueJobFirst(w, m, i, k);
  }

  // ---- Working off a submission ----

  lemma ScheduleNext(w: World, k: nat) returns (w': World)
    requires Reachable(w) && HasCall(w, k, Undecided) && EnqueueOutcome(w.queue, w.closed).Pass?
    requires Due(w.jobs[NextOf(w.submitters[k])], w.now)
    ensures Reachable(w')
    ensures w' == SetSubmitter(w.(queue := w.queue + [NextOf(w.submitters[k])]), k, Advance(w.submitters[k], true))
  {
    hide Reachable;
    StepReachable(w, Submits(Decide(k)));
    var d := AfterDecide(w, k);
    StepReachable(d, Submits(SubmitStep.Put(k)));
    w' := AfterPut(d, k);
  }

  lemma HoldNext(w: World, k: nat) returns (w': World)
    requires Reachable(w) && HasCall(w, k, Undecided) && !Due(w.jobs[NextOf(w.submitters[k])], w.now)
    ensures Reachable(w')
    ensures w' == SetSubmitter(w.(pending := w.pending + [NextOf(w.submitters[k])]), k, Advance(w.submitters[k], true))
  {
    hide Reachable;
    StepReachable(w, Submits(Decide(k)));
    var d := AfterDecide(w, k);
    StepReachable(d, Submits(Hold(k)));
    w' := AfterHold(d, k);
  }

  lemma StartNext(w: World) returns (w': World)
    requires Reachable(w) && w.worker == Top && !w.cancelled && |w.queue| > 0 && w.queue[0] in w.jobs
    ensures Reachable(w')
    ensures w' == AfterBegin(w.(queue := w.queue[1..]), w.queue[0])
  {
    hide Reachable;
    StepReachable(w, Works(CheckContext));
    var p := w.(worker := Polling);
    StepReachable(p, Works(TakeNext));
    var h := AfterTake(p);
    StepReachable(h, Works(BeginAttempt));
    w' := AfterBegin(h, w.queue[0]);
  }

  lemma Complete(w: World, j: Id) returns (w': World)
    requires Reachable(w) && w.worker == Handling(j) && j in w.jobs
    ensures Reachable(w') && w' == AfterOk(w, j, "", w.now)
  {
    hide Reachable;
    StepReachable(w, Works(AttemptOk("", w.now)));
    w' := AfterOk(w, j, "", w.now);
  }

  lemma FirstBackoff()
    ensures Backoff(1) == 100 * MILLISECOND > 0
  {
    BackoffExactIff(1);
  }

  /** The first attempt fails; a retry is delayed. */
  lemma FailFirst(w: World, j: Id) returns (w': World)
    requires Reachable(w) && w.worker == Handling(j) && j in w.jobs && w.now > 0 && w.jobs[j].attempts == 1
    ensures Reachable(w')
    ensures w' == w.(jobs := w'.jobs, pending := w'.pending, worker := Top) && w'.jobs.Keys == w.jobs.Keys
    ensures w'.jobs[j].state == (if 1 < w.jobs[j].maxAttempts then Retrying else Failed)
    ensures forall x :: x in w.jobs && x != j ==> w'.jobs[x] == w.jobs[x]
  {
    hide Reachable, Backoff, Wrap64;
    StepReachable(w, Works(AttemptError("", "", w.now)));
    w' := AfterError(w, j, "", "", w.now);
    if w'.jobs[j].state == Retrying {
      FirstBackoff();
      StepReachable(w', Works(WorkerDecide));
      w' := w'.(worker := Rescheduling(j, ToPending));
      StepReachable(w', Works(WorkerHold));
      w' := w'.(pending := w'.pending + [j], worker := Top);
    }
  }

  lemma RegisterFirst(records: seq<Record>, now: Time) returns (w: World)
    requires FreshRecords(map[], records)
    ensures Reachable(w) && WorkedOff(w, records, now, 0)
    ensures w.jobs == Registered(map[], records) && w.ticker == Idle && w.pending == [] && w.dropped == {}
  {
    hide Reachable;
    InitReachable(now);
    StepReachable(Init(now), Submits(Register(records)));
    w := AfterRegister(Init(now), records);
    RegisteredTable(map[], records);
    StepReachable(w, Controls(Start));
    w := w.(worker := Top, ticker := Idle);
  }

  /** The first `n` jobs of the only submission have been scheduled and nothing
      is queued or worked on; the others are untouched. */
  ghost predicate WorkedOff(w: World, records: seq<Record>, now: Time, n: nat) {
    && n <= |records|
    && w.now == now && w.worker == Top && !w.cancelled && !w.closed && w.queue == []
    && w.submitters == [Submitter(IdsOf(records), n, Undecided, false, records, now)]
    && (forall a :: 0 <= a < |records| ==> records[a].id in w.jobs)
    && (forall a :: n <= a < |records| ==> w.jobs[records[a].id] == records[a])
  }

  /** The state of a record whose first attempt fails if it was due. */
  function HeldBack(r: Record, now: Time): JobState {
    if !Due(r, now) then Pending else if 1 < r.maxAttempts then Retrying else Failed
  }

  ghost predicate Unfinished(w: World, r: Record, now: Time) {
    r.id in w.jobs && w.jobs[r.id].state == HeldBack(r, now) && (!Due(r, now) ==> w.jobs[r.id] == r)
  }

  lemma WorkOffDue(w: World, records: seq<Record>, now: Time, n: nat, fails: bool) returns (w': World)
    requires FreshRecords(map[], records) && Reachable(w) && WorkedOff(w, records, now, n) && n < |records|
    requires Due(records[n], now) && (fails ==> now > 0)
    ensures Reachable(w') && WorkedOff(w', records, now, n + 1)
    ensures fails ==> Unfinished(w', records[n], now)
    ensures forall a :: 0 <= a < n ==> w'.jobs[records[a].id] == w.jobs[records[a].id]
  {
    hide Reachable;
    assert NextOf(w.submitters[0]) == records[n].id;
    w' := ScheduleNext(w, 0);
    w' := AttemptOnce(w', records[n].id, fails);
  }

  /** One turn of the worker for a job that has not been started. */
  lemma AttemptOnce(w: World, j: Id, fails: bool) returns (w': World)
    requires Reachable(w) && w.worker == Top && !w.cancelled && w.queue == [j] && j in w.jobs && Fresh(w.jobs[j])
    requires fails ==> w.now > 0
    ensures Reachable(w') && w'.jobs.Keys == w.jobs.Keys
    ensures w' == w.(queue := [], jobs := w'.jobs, pending := w'.pending, firstStart := w'.firstStart)
    ensures fails ==> w'.jobs[j].state == (if 1 < w.jobs[j].maxAttempts then Retrying else Failed)
    ensures forall x :: x in w.jobs && x != j ==> w'.jobs[x] == w.jobs[x]
  {
    hide Reachable;
    w' := StartNext(w);
    if fails {
      w' := FailFirst(w', j);
    } else {
      w' := Complete(w', j);
    }
  }

  lemma WorkOffDelayed(w: World, records: seq<Record>, now: Time, n: nat) returns (w': World)
    requires FreshRecords(map[], records) && Reachable(w) && WorkedOff(w, records, now, n) && n < |records|
    requires !Due(records[n], now)
    ensures Reachable(w') && WorkedOff(w', records, now, n + 1) && Unfinished(w', records[n], now)
    ensures w'.jobs == w.jobs && w'.ticker == w.ticker && w'.dropped == w.dropped
    ensures w'.pending == w.pending + [records[n].id]
  {
    hide Reachable;
    assert NextOf(w.submitters[0]) == records[n].id;
    w' := HoldNext(w, 0);
  }

  /** Work off the first `n` jobs; only the i-th fails, or stays delayed. */
  lemma {:induction false} WorkOff(records: seq<Record>, now: Time, i: nat, n: nat) returns (w: World)
    requires FreshRecords(map[], records) && i < |records| && n <= |records|
    requires Due(records[i], now) ==> now > 0
    ensures Reachable(w) && WorkedOff(w, records, now, n)
    ensures i < n ==> Unfinished(w, records[i], now)
  {
    hide Reachable;
    if n == 0 {
      w := RegisterFirst(records, now);
    } else {
      w := WorkOff(records, now, i, n - 1);
      if Due(records[n - 1], now) {
        w := WorkOffDue(w, records, now, n - 1, n - 1 == i);
      } else {
        w := WorkOffDelayed(w, records, now, n - 1);
      }
    }
  }

  // ---- The limits of the guarantee ----

  /** Whatever is submitted: a job can run while an earlier one, an ancestor or
      not, has not completed. A delayed one has not even been started. */
  lemma RunsBeforeEarlierCompletes(records: seq<Record>, now: Time, i: nat, k: nat) returns (w: World)
    requires FreshRecords(map[], records) && i < k < |records|
    requires Due(records[i], now) ==> now > 0
    ensures Reachable(w) && |w.submitters| == 1 && Submitted(w.submitters[0], records, now)
    ensures w.submitters[0].order == IdsOf(records)
    ensures Unfinished(w, records[i], now)
    ensures records[k].id in w.jobs && w.jobs[records[k].id].state == Running && Started(w, records[k].id)
  {
    hide Reachable;
    w := WorkOff(records, now, i, k);
    var t := MaxInt(now, records[k].runAfter);
    StepReachable(w, Controls(Tick(t)));
    w := w.(now := t);
    assert NextOf(w.submitters[0]) == records[k].id;
    w := ScheduleNext(w, 0);
    assert w.queue == [records[k].id];
    w := StartNext(w);
  }

  /** In every run in which these records are registered at this time, the first
      attempt of `v` begins only after that of `u` has ended. */
  ghost predicate AlwaysWaits(records: seq<Record>, now: Time, u: Id, v: Id) {
    forall w, m ::
      Reachable(w) && 0 <= m < |w.submitters| && Submitted(w.submitters[m], records, now) && Started(w, v) ==>
        FirstDone(w, u)
  }

  /** A job waits for an earlier one of its submission exactly when that one is
      due when they are submitted. */
  lemma WaitsIffDue(records: seq<Record>, now: Time, i: nat, k: nat)
    requires FreshRecords(map[], records) && i < k < |records|
    ensures AlwaysWaits(records, now, records[i].id, records[k].id) <==> Due(records[i], now)
  {
    if Due(records[i], now) {
      forall w, m | Reachable(w) && 0 <= m < |w.submitters| && Submitted(w.submitters[m], records, now)
        && Started(w, records[k].id)
        ensures FirstDone(w, records[i].id)
      {
        ReachableOrdered(w);
        assert SubmitterOrdered(w, w.submitters[m]);
        EarlierDueJobFirst(w, m, i, k);
      }
    } else {
      var w := RunsBeforeEarlierCompletes(records, now, i, k);
      assert Submitted(w.submitters[0], records, now) && !FirstDone(w, records[i].id);
    }
  }

  /** The dependency of `v` on its ancestor `u` is respected in every run if and
      only if `u` is due when the graph is submitted. */
  lemma DependencyRespectedIff(g: Graph, records: seq<Record>, now: Time, i: nat, v: Id)
    requires FreshRecords(map[], records) && IsTopologicalOrder(g, IdsOf(records)) && i < |records|
    requires v in g.nodes && Reaches(g, records[i].id, v) && records[i].id != v
    ensures AlwaysWaits(records, now, records[i].id, v) <==> Due(records[i], now)
  {
    var a, k := AncestorIsEarlier(g, IdsOf(records), records[i].id, v);
    assert records[a].id == records[i].id;
    WaitsIffDue(records, now, a, k);
  }

  /** That an ancestor has completed when its descendant runs is assured by no
      submission: if it was due, its first attempt may have failed. */
  lemma CompletionIsNeverAssured(g: Graph, records: seq<Record>, now: Time, i: nat, v: Id) returns (w: World)
    requires FreshRecords(map[], records) && IsTopologicalOrder(g, IdsOf(records)) && i < |records| && now > 0
    requires v in g.nodes && Reaches(g, records[i].id, v) && records[i].id != v
    ensures Reachable(w) && |w.submitters| == 1 && Submitted(w.submitters[0], records, now)
    ensures v in w.jobs && w.jobs[v].state == Running
    ensures Unfinished(w, records[i], now) && w.jobs[records[i].id].state in {Pending, Retrying, Failed}
  {
    var a, k := AncestorIsEarlier(g, IdsOf(records), records[i].id, v);
    assert records[a].id == records[i].id;
    w := RunsBeforeEarlierCompletes(records, now, a, k);
  }
}
