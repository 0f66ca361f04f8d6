/** When attempts may start: never before `RunAfter`, and never closer together
    than the quadratic backoff. */
module PlaneTiming {
  import opened Graphs
  import opened Jobs
  import opened Schedulers
  import opened PlaneSteps
  import opened PlaneConservation
  import opened PlaneLifecycle

  /** The sum of the backoffs before attempt `n`. */
  ghost function Delay(n: int): int {
    if n <= 1 then 0 else Delay(n - 1) + (n - 1) * (n - 1) * 100 * MILLISECOND
  }

  lemma {:induction false} DelayClosedForm(n: int)
    requires n >= 1
    ensures 6 * Delay(n) == 100_000_000 * ((n - 1) * n * (2 * n - 1))
  {
    if n > 1 {
      DelayClosedForm(n - 1);
      assert (n - 2) * (n - 1) * (2 * (n - 1) - 1) + 6 * ((n - 1) * (n - 1)) == (n - 1) * n * (2 * n - 1);
    }
  }

  // ---- Cleared to run ----

  ghost predicate DueNow(w: World, j: Id) {
    j in w.jobs && Due(w.jobs[j], w.now)
  }

  predicate PastDecision(s: Submitter) {
    s.next < |s.order| && !s.failed && s.call == ToQueue
  }

  predicate WorkerCleared(p: Worker) {
    p.Holding? || (p.Rescheduling? && p.call == ToQueue)
  }

  /** Whatever is on its way to an attempt is due. */
  ghost predicate ClearedAreDue(w: World) {
    && (forall j :: j in w.queue ==> DueNow(w, j))
    && (forall j :: j in Batch(w.ticker) ==> DueNow(w, j))
    && (WorkerCleared(w.worker) ==> DueNow(w, w.worker.job))
    && (forall k :: 0 <= k < |w.submitters| && PastDecision(w.submitters[k]) ==> DueNow(w, NextOf(w.submitters[k])))
  }

  /** Later, with due jobs still due and no list gaining a job. */
  lemma ClearedCarriesOver(w: World, w': World)
    requires ClearedAreDue(w)
    requires forall j ::
      DueNow(w, j) && (j in w.queue || j in Batch(w.ticker) || j in HandsOf(w.submitters)) ==> DueNow(w', j)
    requires w'.submitters == w.submitters
    requires forall j :: j in w'.queue ==> j in w.queue
    requires forall j :: j in Batch(w'.ticker) ==> j in Batch(w.ticker)
    requires WorkerCleared(w'.worker) ==> DueNow(w', w'.worker.job)
    ensures ClearedAreDue(w')
  {
    forall k | 0 <= k < |w'.submitters| && PastDecision(w'.submitters[k])
      ensures DueNow(w', NextOf(w'.submitters[k])) {
      HandsInclude(w.submitters, k, NextOf(w.submitters[k]));
      assert InHand(w.submitters[k])[0] == NextOf(w.submitters[k]);
    }
  }

  lemma ClearedBegin(w: World, j: Id)
    requires Inv(w) && ClearedAreDue(w) && w.worker == Holding(j) && j in w.jobs
    ensures ClearedAreDue(AfterBegin(w, j))
  {
    hide Conserved;
    WorkerJobLive(w);
    ClearedCarriesOver(w, AfterBegin(w, j));
  }

  lemma ClearedEnd(w: World, j: Id, r: Record, p: Worker)
    requires Inv(w) && ClearedAreDue(w) && w.worker == Handling(j) && j in w.jobs && !WorkerCleared(p)
    ensures ClearedAreDue(w.(jobs := w.jobs[j := r], worker := p))
  {
    WorkerJobLive(w);
    ClearedCarriesOver(w, w.(jobs := w.jobs[j := r], worker := p));
  }

  lemma ClearedOk(w: World, j: Id, result: string, at: Time)
    requires Inv(w) && ClearedAreDue(w) && w.worker == Handling(j) && j in w.jobs
    ensures ClearedAreDue(AfterOk(w, j, result, at))
  {
    ClearedEnd(w, j, Succeed(w.jobs[j].(result := result), at), Top);
  }

  lemma ClearedError(w: World, j: Id, result: string, error: string, at: Time)
    requires Inv(w) && ClearedAreDue(w) && w.worker == Handling(j) && j in w.jobs
    ensures ClearedAreDue(AfterError(w, j, result, error, at))
  {
    var r := FailAttempt(w.jobs[j].(result := result), error, at, w.now);
    ClearedEnd(w, j, r, AfterError(w, j, result, error, at).worker);
  }

  lemma ClearedTake(w: World)
    requires Inv(w) && ClearedAreDue(w) && w.worker == Polling
    ensures ClearedAreDue(AfterTake(w))
  {
    if |w.queue| > 0 {
      assert w.queue[0] in w.queue;
    }
    ClearedCarriesOver(w, AfterTake(w));
  }

  lemma ClearedAttempt(w: World, st: WorkerStep)
    requires Inv(w) && ClearedAreDue(w) && WorkerEnabled(w, st)
    requires st.BeginAttempt? || st.AttemptOk? || st.AttemptError?
    ensures ClearedAreDue(DoWork(w, st))
  {
    match st
    case BeginAttempt => ClearedBegin(w, w.worker.job);
    case AttemptOk(result, at) => ClearedOk(w, w.worker.job, result, at);
    case AttemptError(result, error, at) => ClearedError(w, w.worker.job, result, error, at);
  }

  lemma ClearedWork(w: World, st: WorkerStep)
    requires Inv(w) && ClearedAreDue(w) && WorkerEnabled(w, st)
    ensures ClearedAreDue(DoWork(w, st))
  {
    hide Conserved;
    if st.BeginAttempt? || st.AttemptOk? || st.AttemptError? {
      ClearedAttempt(w, st);
    } else if st.TakeNext? {
      ClearedTake(w);
    }
  }

  lemma ClearedRegister(w: World, records: seq<Record>)
    requires ClearedAreDue(w) && FreshRecords(w.jobs, records)
    ensures ClearedAreDue(AfterRegister(w, records))
  {
    RegisteredTable(w.jobs, records);
    var w' := AfterRegister(w, records);
    forall k | 0 <= k < |w'.submitters| && PastDecision(w'.submitters[k])
      ensures DueNow(w', NextOf(w'.submitters[k])) {
      assert w'.submitters[k] == if k < |w.submitters| then w.submitters[k] else NewSubmitter(w, records);
    }
  }

  lemma ClearedSubmit(w: World, st: SubmitStep)
    requires ClearedAreDue(w) && SubmitEnabled(w, st)
    ensures ClearedAreDue(DoSubmit(w, st))
  {
    match st
    case Register(records) => ClearedRegister(w, records);
    case Decide(k) =>
    case Put(k) =>
    case Hold(k) =>
      var s := w.submitters[k];
      var held := w.(pending := w.pending + [NextOf(s)]);
      ClearedCarriesOver(w, held);
  }

  lemma ClearedTicker(w: World, st: TickerStep)
    requires ClearedAreDue(w) && TickerEnabled(w, st)
    ensures ClearedAreDue(DoTicker(w, st))
  {
    match st
    case Partition =>
      forall j | j in Select(w.pending, DueIds(w)) ensures DueNow(w, j) {
        PartitionCounts(w.pending, DueIds(w), j);
      }
    case FlushNext =>
      var b := w.ticker.batch;
      assert b[0] in Batch(w.ticker);
      ClearedCarriesOver(Enqueued(w, b[0]), DoTicker(w, st));
    case _ => ClearedCarriesOver(w, DoTicker(w, st));
  }

  // ---- Spacing of attempts ----

  /** The last attempt all of whose preceding backoffs fit an int64. */
  const SAFE_ATTEMPTS: int := 303701

  ghost predicate SpacedRecord(w: World, j: Id)
    requires j in w.jobs
  {
    var r := w.jobs[j];
    && (r.state == Retrying ==> r.attempts >= 1)
    && (j in w.firstStart <==> r.attempts >= 1)
    && (1 <= r.attempts <= SAFE_ATTEMPTS ==>
          w.firstStart[j] + Delay(r.attempts) <= r.startedAt <= w.now)
    && (r.state == Retrying && r.attempts < SAFE_ATTEMPTS ==>
          r.runAfter > 0 && r.runAfter >= w.firstStart[j] + Delay(r.attempts + 1))
  }

  ghost predicate Spaced(w: World) {
    w.now > 0 && forall j :: j in w.jobs ==> SpacedRecord(w, j)
  }

  lemma SpacedBegin(w: World, j: Id)
    requires Inv(w) && ClearedAreDue(w) && Spaced(w) && w.worker == Holding(j) && j in w.jobs
    ensures Spaced(AfterBegin(w, j))
  {
    var w' := AfterBegin(w, j);
    WorkerJobLive(w);
    assert RecordOk(w.jobs[j], false) && SpacedRecord(w, j);
    assert DueNow(w, j);
    forall x | x in w'.jobs ensures SpacedRecord(w', x) {
      if x != j {
        assert SpacedRecord(w, x);
      }
    }
  }

  /** The retry time of a failed attempt respects the next backoff sum. */
  lemma RetryIsSpaced(r: Record, error: string, finishedAt: Time, now: Time, first: Time)
    requires 1 <= r.attempts < r.maxAttempts && r.attempts < SAFE_ATTEMPTS && now > 0
    requires first + Delay(r.attempts) <= r.startedAt <= now
    ensures var f := FailAttempt(r, error, finishedAt, now);
      f.runAfter > 0 && f.runAfter >= first + Delay(r.attempts + 1)
  {
    BackoffExactIff(r.attempts);
    SquareMonotone(0, r.attempts);
  }

  lemma SpacedError(w: World, j: Id, result: string, error: string, finishedAt: Time)
    requires Inv(w) && Spaced(w) && w.worker == Handling(j) && j in w.jobs
    ensures Spaced(AfterError(w, j, result, error, finishedAt))
  {
    var w', r := AfterError(w, j, result, error, finishedAt), w.jobs[j].(result := result);
    assert RecordOk(w.jobs[j], true) && SpacedRecord(w, j);
    if r.attempts < SAFE_ATTEMPTS && r.attempts < r.maxAttempts {
      RetryIsSpaced(r, error, finishedAt, w.now, w.firstStart[j]);
    }
    assert SpacedRecord(w', j);
    forall x | x in w'.jobs ensures SpacedRecord(w', x) {
      if x != j {
        assert SpacedRecord(w, x);
      }
    }
  }

  lemma SpacedOk(w: World, j: Id, result: string, finishedAt: Time)
    requires Spaced(w) && w.worker == Handling(j) && j in w.jobs
    ensures Spaced(AfterOk(w, j, result, finishedAt))
  {
    var w' := AfterOk(w, j, result, finishedAt);
    forall x | x in w'.jobs ensures SpacedRecord(w', x) {
      assert SpacedRecord(w, x);
    }
  }

  lemma SpacedSame(w: World, w': World)
    requires Spaced(w) && w'.jobs == w.jobs && w'.firstStart == w.firstStart && w'.now >= w.now
    ensures Spaced(w')
  {
    forall x | x in w'.jobs ensures SpacedRecord(w', x) {
      assert SpacedRecord(w, x);
    }
  }

  lemma SpacedWork(w: World, st: WorkerStep)
    requires Inv(w) && ClearedAreDue(w) && Spaced(w) && WorkerEnabled(w, st)
    ensures Spaced(DoWork(w, st))
  {
    match st
    case BeginAttempt => SpacedBegin(w, w.worker.job);
    case AttemptOk(result, at) => SpacedOk(w, w.worker.job, result, at);
    case AttemptError(result, error, at) => SpacedError(w, w.worker.job, result, error, at);
    case _ => SpacedSame(w, DoWork(w, st));
  }

  ghost predicate StartsKnown(w: World) {
    forall j :: j in w.firstStart ==> j in w.jobs
  }

  lemma SpacedSubmit(w: World, st: SubmitStep)
    requires Spaced(w) && StartsKnown(w) && SubmitEnabled(w, st)
    ensures Spaced(DoSubmit(w, st))
  {
    match st
    case Register(records) =>
      var w' := AfterRegister(w, records);
      RegisteredTable(w.jobs, records);
      forall x | x in w'.jobs ensures SpacedRecord(w', x) {
        if x in w.jobs {
          assert SpacedRecord(w, x);
        } else {
          var i :| 0 <= i < |records| && IdsOf(records)[i] == x;
          assert w'.jobs[records[i].id] == records[i] && Fresh(records[i]);
        }
      }
    case _ => SpacedSame(w, DoSubmit(w, st));
  }

  ghost predicate TimingOk(w: World) {
    ClearedAreDue(w) && Spaced(w) && StartsKnown(w)
  }

  lemma TimingSubmit(w: World, st: SubmitStep)
    requires TimingOk(w) && SubmitEnabled(w, st)
    ensures TimingOk(DoSubmit(w, st))
  {
    ClearedSubmit(w, st);
    SpacedSubmit(w, st);
    if st.Register? {
      RegisteredTable(w.jobs, st.records);
    }
  }

  lemma TimingWork(w: World, st: WorkerStep)
    requires Inv(w) && TimingOk(w) && WorkerEnabled(w, st)
    ensures TimingOk(DoWork(w, st))
  {
    ClearedWork(w, st);
    SpacedWork(w, st);
  }

  lemma TimingTicker(w: World, st: TickerStep)
    requires TimingOk(w) && TickerEnabled(w, st)
    ensures TimingOk(DoTicker(w, st))
  {
    ClearedTicker(w, st);
    SpacedSame(w, DoTicker(w, st));
  }

  lemma TimingControl(w: World, st: ControlStep)
    requires TimingOk(w) && ControlEnabled(w, st)
    ensures TimingOk(DoControl(w, st))
  {
    SpacedSame(w, DoControl(w, st));
  }

  lemma TimingStep(w: World, st: Step)
    requires Inv(w) && TimingOk(w) && Enabled(w, st)
    ensures TimingOk(Do(w, st))
  {
    match st
    case Submits(s) => TimingSubmit(w, s);
    case Works(p) => TimingWork(w, p);
    case Ticks(f) => TimingTicker(w, f);
    case Controls(c) => TimingControl(w, c);
  }

  lemma {:induction false} TimingHolds(ws: seq<World>, steps: seq<Step>, n: nat)
    requires IsRun(ws, steps) && n < |ws| && ws[0].now > 0
    ensures TimingOk(ws[n])
  {
    hide Do, Enabled, Inv;
    if n > 0 {
      TimingHolds(ws, steps, n - 1);
      InvHolds(ws, steps, n - 1);
      TimingStep(ws[n - 1], steps[n - 1]);
    }
  }

  /** No attempt starts before the job's `RunAfter`. */
  lemma NoEarlyStart(ws: seq<World>, steps: seq<Step>, n: nat)
    requires IsRun(ws, steps) && n < |steps| && ws[0].now > 0 && steps[n] == Works(BeginAttempt)
    ensures var j := ws[n].worker.job;
      j in ws[n].jobs && (ws[n].jobs[j].runAfter == 0 || ws[n].now >= ws[n].jobs[j].runAfter)
  {
    TimingHolds(ws, steps, n);
  }

  /** The n-th attempt starts at least 100·(n-1)n(2n-1)/6 ms after the first. */
  lemma AttemptsAreSpaced(ws: seq<World>, steps: seq<Step>, n: nat, j: Id)
    requires IsRun(ws, steps) && n < |ws| && ws[0].now > 0
    requires j in ws[n].jobs && 1 <= ws[n].jobs[j].attempts <= 303701
    ensures var r := ws[n].jobs[j];
      && j in ws[n].firstStart
      && 6 * (r.startedAt - ws[n].firstStart[j])
           >= 100_000_000 * ((r.attempts - 1) * r.attempts * (2 * r.attempts - 1))
  {
    TimingHolds(ws, steps, n);
    assert SpacedRecord(ws[n], j);
    DelayClosedForm(ws[n].jobs[j].attempts);
  }
}
