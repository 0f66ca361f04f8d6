/** States, attempts and shutdown of the execution plane over whole runs. */
module PlaneLifecycle {
  import opened Graphs
  import opened Jobs
  import opened PlaneSteps
  import opened PlaneConservation

  function MaxInt(a: int, b: int): int {
    if a > b then a else b
  }

  /** What a job's record says about its past. */
  predicate RecordOk(j: Record, handled: bool) {
    && (j.state == Running <==> handled)
    && (j.state == Pending <==> j.attempts == 0)
    && 0 <= j.attempts <= MaxInt(1, j.maxAttempts)
    && (j.state == Retrying ==> j.attempts < j.maxAttempts)
    && (j.state == Failed ==> j.attempts >= j.maxAttempts)
  }

  /** The jobs still in a submitter's hand have not been touched. */
  ghost predicate HandFresh(jobs: map<Id, Record>, s: Submitter) {
    forall i :: s.next <= i < |s.order| ==> s.order[i] in jobs && Fresh(jobs[s.order[i]])
  }

  ghost predicate HandsFresh(w: World) {
    forall k :: 0 <= k < |w.submitters| ==> HandFresh(w.jobs, w.submitters[k])
  }

  ghost predicate LifecycleOk(w: World) {
    && (forall j :: j in w.jobs ==> RecordOk(w.jobs[j], w.worker == Handling(j)))
    && (w.worker.Rescheduling? ==> w.worker.job in w.jobs && w.jobs[w.worker.job].state == Retrying)
  }

  /** The order in which Stop waits before it closes the queue. */
  predicate ShutdownOk(w: World) {
    && (w.closed <==> w.stopper == Stopped)
    && (w.stopper in {AwaitTicker, AwaitClose, Stopped} ==> w.worker == WorkerGone)
    && (w.stopper in {AwaitClose, Stopped} ==> w.ticker == TickerGone)
    && (w.worker == WorkerOff <==> w.ticker == TickerOff)
    && (w.stopper != NotStopping ==> w.cancelled && w.worker != WorkerOff)
  }

  ghost predicate Inv(w: World) {
    Conserved(w) && LifecycleOk(w) && HandsFresh(w) && ShutdownOk(w)
  }

  // ---- Preservation ----

  /** The worker's job is accepted, unfinished and not lost. */
  lemma WorkerJobLive(w: World)
    requires Conserved(w) && InWorker(w.worker) != []
    ensures var j := w.worker.job;
      && j in w.jobs && !IsTerminal(w, j) && j !in w.dropped
      && j !in HandsOf(w.submitters) && j !in w.queue && j !in w.pending && j !in Batch(w.ticker)
  {
    assert w.worker.job in InWorker(w.worker);
    OnlyPlace(w, w.worker.job);
  }

  lemma HandNotElsewhere(w: World, k: nat, i: nat)
    requires Conserved(w) && k < |w.submitters| && w.submitters[k].next <= i < |w.submitters[k].order|
    ensures w.submitters[k].order[i] in HandsOf(w.submitters)
  {
    var s := w.submitters[k];
    assert InHand(s)[i - s.next] == s.order[i];
    HandsInclude(w.submitters, k, s.order[i]);
  }

  lemma LifecycleBegin(w: World, j: Id)
    requires Inv(w) && w.worker == Holding(j) && j in w.jobs
    ensures LifecycleOk(AfterBegin(w, j))
  {
    WorkerJobLive(w);
  }

  lemma LifecycleEnd(w: World, j: Id, r: Record, p: Worker)
    requires Inv(w) && w.worker == Handling(j) && j in w.jobs
    requires RecordOk(r, false) && !p.Handling?
    requires p.Rescheduling? ==> p.job == j && r.state == Retrying
    ensures LifecycleOk(w.(jobs := w.jobs[j := r], worker := p))
  {
  }

  lemma LifecycleError(w: World, j: Id, result: string, error: string, finishedAt: Time)
    requires Inv(w) && w.worker == Handling(j) && j in w.jobs
    ensures LifecycleOk(AfterError(w, j, result, error, finishedAt))
  {
    var r := FailAttempt(w.jobs[j].(result := result), error, finishedAt, w.now);
    var w' := AfterError(w, j, result, error, finishedAt);
    assert w' == w.(jobs := w.jobs[j := r], worker := w'.worker);
    LifecycleEnd(w, j, r, w'.worker);
  }

  lemma LifecycleOkay(w: World, j: Id, result: string, finishedAt: Time)
    requires Inv(w) && w.worker == Handling(j) && j in w.jobs
    ensures LifecycleOk(AfterOk(w, j, result, finishedAt))
  {
    LifecycleEnd(w, j, Succeed(w.jobs[j].(result := result), finishedAt), Top);
  }

  lemma LifecycleSame(w: World, w': World)
    requires LifecycleOk(w) && w'.jobs == w.jobs
    requires w'.worker == w.worker || (!w.worker.Handling? && !w'.worker.Handling?)
    requires w'.worker.Rescheduling? ==> w.worker.Rescheduling? && w'.worker.job == w.worker.job
    ensures LifecycleOk(w')
  {
  }

  lemma LifecycleWork(w: World, st: WorkerStep)
    requires Inv(w) && WorkerEnabled(w, st)
    ensures LifecycleOk(DoWork(w, st))
  {
    match st
    case BeginAttempt => LifecycleBegin(w, w.worker.job);
    case AttemptOk(result, at) => LifecycleOkay(w, w.worker.job, result, at);
    case AttemptError(result, error, at) => LifecycleError(w, w.worker.job, result, error, at);
    case _ => LifecycleSame(w, DoWork(w, st));
  }

  lemma LifecycleSubmit(w: World, st: SubmitStep)
    requires Inv(w) && SubmitEnabled(w, st)
    ensures LifecycleOk(DoSubmit(w, st))
  {
    hide Conserved;
    match st
    case Register(records) =>
      RegisteredTable(w.jobs, records);
      var m := Registered(w.jobs, records);
      forall j | j in m ensures RecordOk(m[j], w.worker == Handling(j)) {
        if j !in w.jobs {
          var i :| 0 <= i < |records| && IdsOf(records)[i] == j;
          assert Fresh(records[i]);
          if w.worker == Handling(j) {
            WorkerJobLive(w);
          }
        }
      }
    case _ => LifecycleSame(w, DoSubmit(w, st));
  }

  /** The worker's job is in nobody's hand, so the others stay fresh. */
  lemma HandsFreshExcept(w: World, j: Id, w': World)
    requires Conserved(w) && HandsFresh(w) && j !in HandsOf(w.submitters)
    requires w'.submitters == w.submitters
    requires forall x :: x in w.jobs && x != j ==> x in w'.jobs && w'.jobs[x] == w.jobs[x]
    ensures HandsFresh(w')
  {
    forall k | 0 <= k < |w.submitters| ensures HandFresh(w'.jobs, w.submitters[k]) {
      var s := w.submitters[k];
      forall i | s.next <= i < |s.order| ensures s.order[i] in w'.jobs && Fresh(w'.jobs[s.order[i]]) {
        HandNotElsewhere(w, k, i);
        assert HandFresh(w.jobs, s);
      }
    }
  }

  lemma HandsFreshWork(w: World, st: WorkerStep)
    requires Inv(w) && WorkerEnabled(w, st)
    ensures HandsFresh(DoWork(w, st))
  {
    hide Conserved;
    if InWorker(w.worker) != [] {
      WorkerJobLive(w);
      HandsFreshExcept(w, w.worker.job, DoWork(w, st));
    }
  }

  lemma HandsFreshRegister(w: World, records: seq<Record>)
    requires Inv(w) && FreshRecords(w.jobs, records)
    ensures HandsFresh(AfterRegister(w, records))
  {
    var w' := AfterRegister(w, records);
    RegisteredTable(w.jobs, records);
    forall k | 0 <= k < |w'.submitters| ensures HandFresh(w'.jobs, w'.submitters[k]) {
      if k == |w.submitters| {
        assert w'.submitters[k] == NewSubmitter(w, records);
        forall i | 0 <= i < |records| ensures records[i].id in w'.jobs && Fresh(w'.jobs[records[i].id]) {
          assert w'.jobs[records[i].id] == records[i];
        }
      } else {
        assert w'.submitters[k] == w.submitters[k] && HandFresh(w.jobs, w.submitters[k]);
      }
    }
  }

  lemma HandsFreshUpdate(w: World, k: nat, s: Submitter, w': World)
    requires HandsFresh(w) && k < |w.submitters| && w'.jobs == w.jobs && w'.submitters == w.submitters[k := s]
    requires s.order == w.submitters[k].order && s.next >= w.submitters[k].next
    ensures HandsFresh(w')
  {
    assert HandFresh(w.jobs, w.submitters[k]);
    assert HandFresh(w'.jobs, s);
  }

  lemma HandsFreshSubmit(w: World, st: SubmitStep)
    requires Inv(w) && SubmitEnabled(w, st)
    ensures HandsFresh(DoSubmit(w, st))
  {
    var w' := DoSubmit(w, st);
    match st
    case Register(records) => HandsFreshRegister(w, records);
    case Decide(k) => HandsFreshUpdate(w, k, w'.submitters[k], w');
    case Put(k) => HandsFreshUpdate(w, k, w'.submitters[k], w');
    case Hold(k) => HandsFreshUpdate(w, k, w'.submitters[k], w');
  }

  lemma ShutdownStep(w: World, st: Step)
    requires ShutdownOk(w) && Enabled(w, st)
    ensures ShutdownOk(Do(w, st))
  {
    match st
    case Submits(s) => assert Do(w, st) == DoSubmit(w, s);
    case Works(p) => assert Do(w, st) == DoWork(w, p);
    case Ticks(f) => assert Do(w, st) == DoTicker(w, f);
    case Controls(c) => assert Do(w, st) == DoControl(w, c);
  }

  lemma LifecycleTicker(w: World, st: TickerStep)
    requires Inv(w) && TickerEnabled(w, st)
    ensures LifecycleOk(DoTicker(w, st)) && HandsFresh(DoTicker(w, st))
  {
    LifecycleSame(w, DoTicker(w, st));
  }

  lemma LifecycleControl(w: World, st: ControlStep)
    requires Inv(w) && ControlEnabled(w, st)
    ensures LifecycleOk(DoControl(w, st)) && HandsFresh(DoControl(w, st))
  {
    LifecycleSame(w, DoControl(w, st));
  }

  lemma LifecycleStep(w: World, st: Step)
    requires Inv(w) && Enabled(w, st)
    ensures LifecycleOk(Do(w, st)) && HandsFresh(Do(w, st))
  {
    match st
    case Submits(s) =>
      LifecycleSubmit(w, s);
      HandsFreshSubmit(w, s);
    case Works(p) =>
      LifecycleWork(w, p);
      HandsFreshWork(w, p);
    case Ticks(f) => LifecycleTicker(w, f);
    case Controls(c) => LifecycleControl(w, c);
  }

  lemma InvStep(w: World, st: Step)
    requires Inv(w) && Enabled(w, st)
    ensures Inv(Do(w, st))
  {
    ConservedStep(w, st);
    LifecycleStep(w, st);
    ShutdownStep(w, st);
  }

  /** Every state of every run satisfies the invariant. */
  lemma {:induction false} InvHolds(ws: seq<World>, steps: seq<Step>, n: nat)
    requires IsRun(ws, steps) && n < |ws|
    ensures Inv(ws[n])
  {
    hide Do, Enabled;
    if n == 0 {
      ConservedInit(ws[0].now);
    } else {
      InvHolds(ws, steps, n - 1);
      InvStep(ws[n - 1], steps[n - 1]);
    }
  }

  lemma ReachableInv(w: World)
    requires Reachable(w)
    ensures Inv(w)
  {
    var ws, steps :| IsRun(ws, steps) && ws[|steps|] == w;
    InvHolds(ws, steps, |steps|);
  }

  /** Whatever happened so far, each accepted job is in exactly one place, and
      nothing else is anywhere. */
  lemma AcceptedJobsHaveOnePlace(w: World, x: Id)
    requires Reachable(w)
    ensures x in w.jobs <==> exists p :: At(w, x, p)
    ensures forall p, q :: At(w, x, p) && At(w, x, q) ==> p == q
  {
    ReachableInv(w);
    ExactlyOnePlace(w, x);
  }
}
