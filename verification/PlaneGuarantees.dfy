/** What the execution plane promises about every run: legal state changes,
    bounded attempts, shutdown, and no loss below capacity. */
module PlaneGuarantees {
  import opened Collections
  import opened Graphs
  import opened Jobs
  import opened Queues
  import opened PlaneSteps
  import opened PlaneConservation
  import opened PlaneLifecycle

  // ---- Lifecycle ----

  /** The state changes a job can make; only a start counts an attempt. */
  predicate LegalMove(a: Record, b: Record) {
    || b == a
    || (a.state in {Pending, Retrying} && b.state == Running && b.attempts == a.attempts + 1)
    || (a.state == Running && b.attempts == a.attempts
        && (b.state == Completed
            || (b.state == Retrying && b.attempts < b.maxAttempts)
            || (b.state == Failed && b.attempts >= b.maxAttempts)))
  }

  lemma LegalWork(w: World, st: WorkerStep, j: Id)
    requires Inv(w) && WorkerEnabled(w, st) && j in w.jobs
    ensures var w' := DoWork(w, st); j in w'.jobs && LegalMove(w.jobs[j], w'.jobs[j])
  {
    hide Conserved;
    assert RecordOk(w.jobs[j], w.worker == Handling(j));
    if InWorker(w.worker) != [] {
      WorkerJobLive(w);
    }
  }

  /** No step loses a job's record or changes its state illegally. */
  lemma StepsAreLegal(w: World, st: Step, j: Id)
    requires Reachable(w) && Enabled(w, st) && j in w.jobs
    ensures var w' := Do(w, st);
      && j in w'.jobs && LegalMove(w.jobs[j], w'.jobs[j])
      && w'.jobs[j].maxAttempts == w.jobs[j].maxAttempts
  {
    ReachableInv(w);
    LegalStep(w, st, j);
  }

  lemma LegalStep(w: World, st: Step, j: Id)
    requires Inv(w) && Enabled(w, st) && j in w.jobs
    ensures var w' := Do(w, st);
      && j in w'.jobs && LegalMove(w.jobs[j], w'.jobs[j])
      && w'.jobs[j].maxAttempts == w.jobs[j].maxAttempts
  {
    hide Conserved;
    match st
    case Submits(s) => SubmitKeepsRecords(w, s, j);
    case Works(p) =>
      LegalWork(w, p, j);
    case Ticks(f) => TickerKeepsRecords(w, f);
    case Controls(c) => ControlKeepsRecords(w, c);
  }

  lemma TickerKeepsRecords(w: World, st: TickerStep)
    requires TickerEnabled(w, st)
    ensures DoTicker(w, st).jobs == w.jobs
  {
  }

  lemma ControlKeepsRecords(w: World, st: ControlStep)
    requires ControlEnabled(w, st)
    ensures DoControl(w, st).jobs == w.jobs
  {
  }

  lemma SubmitKeepsRecords(w: World, st: SubmitStep, j: Id)
    requires SubmitEnabled(w, st) && j in w.jobs
    ensures var w' := DoSubmit(w, st); j in w'.jobs && w'.jobs[j] == w.jobs[j]
  {
    if st.Register? {
      RegisteredTable(w.jobs, st.records);
    }
  }

  /** From then on a finished job's record never changes. */
  lemma {:induction false} FinishedIsFinal(ws: seq<World>, steps: seq<Step>, n: nat, m: nat, j: Id)
    requires IsRun(ws, steps) && n <= m < |ws| && IsTerminal(ws[n], j)
    ensures j in ws[m].jobs && ws[m].jobs[j] == ws[n].jobs[j]
  {
    hide Do, Enabled, Conserved, Inv;
    if n < m {
      FinishedIsFinal(ws, steps, n, m - 1, j);
      InvHolds(ws, steps, m - 1);
      assert Enabled(ws[m - 1], steps[m - 1]) && ws[m] == Do(ws[m - 1], steps[m - 1]);
      LegalStep(ws[m - 1], steps[m - 1], j);
    }
  }

  /** At most one job runs at a time, and it is the one the worker handles. */
  lemma OneJobRuns(w: World, i: Id, j: Id)
    requires Reachable(w) && i in w.jobs && j in w.jobs
    requires w.jobs[i].state == Running && w.jobs[j].state == Running
    ensures i == j && w.worker == Handling(i)
  {
    ReachableInv(w);
    assert RecordOk(w.jobs[i], w.worker == Handling(i)) && RecordOk(w.jobs[j], w.worker == Handling(j));
  }

  // ---- Attempts ----

  /** How many of the first `n` steps started an attempt of `j`. */
  ghost function Starts(ws: seq<World>, steps: seq<Step>, j: Id, n: nat): nat
    requires n <= |steps| && |ws| == |steps| + 1
  {
    if n == 0 then 0
    else Starts(ws, steps, j, n - 1)
         + OneIf(steps[n - 1] == Works(BeginAttempt) && ws[n - 1].worker == Holding(j))
  }

  lemma BeginCountsAttempt(w: World, st: Step, j: Id)
    requires Inv(w) && Enabled(w, st) && j in w.jobs
    ensures var w' := Do(w, st);
      && j in w'.jobs
      && w'.jobs[j].attempts == w.jobs[j].attempts + OneIf(st == Works(BeginAttempt) && w.worker == Holding(j))
  {
    match st
    case Submits(s) => SubmitKeepsRecords(w, s, j);
    case Works(p) => WorkCountsAttempt(w, p, j);
    case Ticks(f) => TickerKeepsRecords(w, f);
    case Controls(c) => ControlKeepsRecords(w, c);
  }

  lemma WorkCountsAttempt(w: World, st: WorkerStep, j: Id)
    requires WorkerEnabled(w, st) && j in w.jobs
    ensures var w' := DoWork(w, st);
      && j in w'.jobs
      && w'.jobs[j].attempts == w.jobs[j].attempts + OneIf(st == BeginAttempt && w.worker == Holding(j))
  {
  }

  lemma NewJobIsFresh(w: World, st: SubmitStep, j: Id)
    requires SubmitEnabled(w, st) && j !in w.jobs
    ensures var w' := DoSubmit(w, st); j in w'.jobs ==> Fresh(w'.jobs[j])
  {
    if st.Register? {
      RegisteredTable(w.jobs, st.records);
      if j in IdsOf(st.records) {
        var i :| 0 <= i < |st.records| && IdsOf(st.records)[i] == j;
        assert st.records[i].id == j && Fresh(st.records[i]);
      }
    }
  }

  lemma WorkAddsNoJob(w: World, st: WorkerStep)
    requires WorkerEnabled(w, st)
    ensures DoWork(w, st).jobs.Keys == w.jobs.Keys
    ensures st == BeginAttempt && w.worker.Holding? ==> w.worker.job in w.jobs
  {
  }

  lemma NewJobsAreUnstarted(w: World, st: Step, j: Id)
    requires Inv(w) && Enabled(w, st) && j !in w.jobs
    ensures var w' := Do(w, st); j in w'.jobs ==> Fresh(w'.jobs[j])
    ensures !(st == Works(BeginAttempt) && w.worker == Holding(j))
  {
    match st
    case Submits(s) => NewJobIsFresh(w, s, j);
    case Works(p) => WorkAddsNoJob(w, p);
    case Ticks(f) => TickerKeepsRecords(w, f);
    case Controls(c) => ControlKeepsRecords(w, c);
  }

  lemma StartsAreAttempts(w: World, st: Step, j: Id)
    requires Inv(w) && Enabled(w, st)
    ensures var w' := Do(w, st);
      (if j in w'.jobs then w'.jobs[j].attempts else 0)
        == (if j in w.jobs then w.jobs[j].attempts else 0)
           + OneIf(st == Works(BeginAttempt) && w.worker == Holding(j))
    ensures j in w.jobs ==> j in Do(w, st).jobs
  {
    if j in w.jobs {
      BeginCountsAttempt(w, st, j);
    } else {
      NewJobsAreUnstarted(w, st, j);
    }
  }

  /** The handler is called for a job exactly `attempts` times, at most
      max(1, MaxAttempts), and a failed job has used them all. */
  lemma {:induction false} HandlerCallsAreBounded(ws: seq<World>, steps: seq<Step>, j: Id, n: nat)
    requires IsRun(ws, steps) && n < |ws|
    ensures j !in ws[n].jobs ==> Starts(ws, steps, j, n) == 0
    ensures j in ws[n].jobs ==>
      && Starts(ws, steps, j, n) == ws[n].jobs[j].attempts <= MaxInt(1, ws[n].jobs[j].maxAttempts)
      && (ws[n].jobs[j].state == Failed ==> ws[n].jobs[j].attempts == MaxInt(1, ws[n].jobs[j].maxAttempts))
  {
    hide Do, Enabled, Conserved, HandsFresh, ShutdownOk;
    InvHolds(ws, steps, n);
    if n > 0 {
      HandlerCallsAreBounded(ws, steps, j, n - 1);
      InvHolds(ws, steps, n - 1);
      StartsAreAttempts(ws[n - 1], steps[n - 1], j);
    }
    if j in ws[n].jobs {
      assert RecordOk(ws[n].jobs[j], ws[n].worker == Handling(j));
    }
  }

  // ---- Shutdown ----

  /** Neither goroutine ever offers a job to a closed queue. */
  lemma InternalEnqueueFindsQueueOpen(w: World, st: Step)
    requires Reachable(w) && Enabled(w, st) && Offered(w, st).Some? && !st.Submits?
    ensures !w.closed
  {
    ReachableInv(w);
  }

  /** Once `Stop` has returned no job runs, and every accepted job is finished,
      refused, still with its submitter, or left in the queue or waiting list. */
  lemma AfterStop(w: World, j: Id)
    requires Reachable(w) && w.stopper == Stopped && j in w.jobs
    ensures w.jobs[j].state != Running
    ensures At(w, j, Finished) || At(w, j, Lost) || At(w, j, WithSubmitter) || At(w, j, Queued) || At(w, j, Delayed)
  {
    ReachableInv(w);
    assert RecordOk(w.jobs[j], w.worker == Handling(j));
    ExactlyOnePlace(w, j);
    var p :| At(w, j, p);
  }

  // ---- Capacity over runs ----

  /** What is known of every job recorded as dropped, while unfinished jobs fit
      the queue: it never started, and a closed queue refused its submitter. */
  ghost predicate LostOnlyByClosedQueue(w: World) {
    forall j :: j in w.dropped ==> w.closed && j in w.jobs && Fresh(w.jobs[j]) && RefusedToSubmitter(w, j)
  }

  /** Some submitter's call ended with an error for `j`. */
  ghost predicate RefusedToSubmitter(w: World, j: Id) {
    exists m :: 0 <= m < |w.submitters| && FailedOn(w.submitters[m], j)
  }

  predicate FailedOn(s: Submitter, j: Id) {
    s.failed && 0 < s.next <= |s.order| && s.order[s.next - 1] == j
  }

  /** A submitter whose call has failed takes no further step. */
  lemma FailedStays(w: World, st: Step, m: nat)
    requires Enabled(w, st) && m < |w.submitters| && w.submitters[m].failed
    ensures m < |Do(w, st).submitters| && Do(w, st).submitters[m] == w.submitters[m]
  {
    match st
    case Submits(s) => assert Do(w, st) == DoSubmit(w, s);
    case Works(p) => assert Do(w, st) == DoWork(w, p);
    case Ticks(f) => assert Do(w, st) == DoTicker(w, f);
    case Controls(c) => assert Do(w, st) == DoControl(w, c);
  }

  lemma RefusalStays(w: World, st: Step, j: Id)
    requires Enabled(w, st) && RefusedToSubmitter(w, j)
    ensures RefusedToSubmitter(Do(w, st), j)
  {
    var m :| 0 <= m < |w.submitters| && FailedOn(w.submitters[m], j);
    FailedStays(w, st, m);
  }

  lemma LostStep(w: World, st: Step)
    requires Inv(w) && Enabled(w, st) && |Live(w)| <= CAPACITY && LostOnlyByClosedQueue(w)
    ensures LostOnlyByClosedQueue(Do(w, st))
  {
    hide Conserved, Do, Enabled, Live, HandsFresh, LifecycleOk, RefusedToSubmitter;
    var w' := Do(w, st);
    DroppedIffRefused(w, st);
    if w.closed {
      ClosedStays(w, st);
    }
    forall j | j in w'.dropped ensures w'.closed && j in w'.jobs && Fresh(w'.jobs[j]) && RefusedToSubmitter(w', j) {
      if j !in w.dropped {
        EnoughRoom(w, st);
        assert w.closed;
        RefusedByClosedIsFresh(w, st);
      } else {
        LostIsUntouched(w, st, j);
        RefusalStays(w, st, j);
      }
    }
  }

  lemma ClosedStays(w: World, st: Step)
    requires Enabled(w, st) && w.closed
    ensures Do(w, st).closed
  {
    match st
    case Submits(s) => assert Do(w, st) == DoSubmit(w, s);
    case Works(p) => assert Do(w, st) == DoWork(w, p);
    case Ticks(f) => assert Do(w, st) == DoTicker(w, f);
    case Controls(c) => assert Do(w, st) == DoControl(w, c);
  }

  lemma RefusedByClosedIsFresh(w: World, st: Step)
    requires Inv(w) && Enabled(w, st) && Offered(w, st).Some? && w.closed
    ensures var j := Offered(w, st).value;
      j in Do(w, st).jobs && Fresh(Do(w, st).jobs[j]) && RefusedToSubmitter(Do(w, st), j)
  {
    hide Conserved;
    ClosedRefuses(w, st.s.k);
  }

  lemma ClosedRefuses(w: World, k: nat)
    requires Inv(w) && HasCall(w, k, ToQueue) && w.closed
    ensures var w', j := AfterPut(w, k), NextOf(w.submitters[k]);
      j in w'.jobs && Fresh(w'.jobs[j]) && RefusedToSubmitter(w', j)
  {
    hide Conserved;
    assert HandFresh(w.jobs, w.submitters[k]);
    assert FailedOn(AfterPut(w, k).submitters[k], NextOf(w.submitters[k]));
  }

  lemma WorkTouchesOnlyItsJob(w: World, st: WorkerStep, j: Id)
    requires Inv(w) && WorkerEnabled(w, st) && j in w.jobs && j !in InWorker(w.worker)
    ensures j in DoWork(w, st).jobs && DoWork(w, st).jobs[j] == w.jobs[j]
  {
  }

  lemma LostNotInWorker(w: World, j: Id)
    requires Conserved(w) && j in w.dropped
    ensures j !in InWorker(w.worker)
  {
    if InWorker(w.worker) != [] {
      WorkerJobLive(w);
    }
  }

  lemma LostIsUntouched(w: World, st: Step, j: Id)
    requires Inv(w) && Enabled(w, st) && j in w.dropped && j in w.jobs
    ensures j in Do(w, st).jobs && Do(w, st).jobs[j] == w.jobs[j]
  {
    LostNotInWorker(w, j);
    match st
    case Submits(s) => SubmitKeepsRecords(w, s, j);
    case Works(p) => WorkTouchesOnlyItsJob(w, p, j);
    case Ticks(f) => TickerKeepsRecords(w, f);
    case Controls(c) => ControlKeepsRecords(w, c);
  }

  /** If at most 1024 accepted jobs are ever unfinished at once, the two ignored
      enqueue errors lose nothing: a job is only ever refused to its submitter,
      after `Stop` has closed the queue, before its first attempt. */
  lemma {:induction false} NothingLostBelowCapacity(ws: seq<World>, steps: seq<Step>, n: nat)
    requires IsRun(ws, steps) && n < |ws|
    requires forall i :: 0 <= i < n ==> |Live(ws[i])| <= 1024
    ensures LostOnlyByClosedQueue(ws[n])
  {
    hide Do, Enabled;
    if n == 0 {
      assert ws[0].dropped == {};
    } else {
      NothingLostBelowCapacity(ws, steps, n - 1);
      InvHolds(ws, steps, n - 1);
      assert Enabled(ws[n - 1], steps[n - 1]);
      var w := Do(ws[n - 1], steps[n - 1]);
      assert |Live(ws[n - 1])| <= CAPACITY;
      LostStep(ws[n - 1], steps[n - 1]);
      assert ws[n] == w;
    }
  }
}
