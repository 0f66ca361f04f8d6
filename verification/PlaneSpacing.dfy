/** The quadratic spacing of attempts holds up to attempt 303701 and fails for
    every later one: the backoff product overflows. */
module PlaneSpacing {
  import opened Graphs
  import opened Jobs
  import opened Results
  import opened Schedulers
  import opened PlaneSteps
  import opened PlaneRefinement
  import opened PlaneTiming

  const START: Time := 1

  // ---- A run in which every attempt starts as early as it can ----

  /** How long after the first attempt the n-th starts in that run: exactly the
      sum of the backoffs, until the overflow brings it forward. */
  ghost predicate AsEarly(gap: int, n: nat) {
    if n <= SAFE_ATTEMPTS then gap == Delay(n) else gap < Delay(n)
  }

  /** `j` has been attempted `n` times and is next in the queue, at the moment
      its next attempt starts. */
  ghost predicate Ready(w: World, j: Id, limit: int, n: nat) {
    && w.now > 0 && w.worker == Top && w.ticker == Idle && !w.cancelled && !w.closed
    && w.queue == [j] && w.pending == []
    && j in w.jobs && w.jobs[j].attempts == n && w.jobs[j].maxAttempts == limit
    && (if n == 0 then j !in w.firstStart else j in w.firstStart && AsEarly(w.now - w.firstStart[j], n + 1))
  }

  /** The next start, after a backoff or at once if that is not positive. */
  lemma NextGap(gap: int, n: nat, pause: int)
    requires n >= 1 && AsEarly(gap, n)
    requires pause == if Backoff(n) > 0 then Backoff(n) else 0
    ensures AsEarly(gap + pause, n + 1)
  {
    BackoffExactIff(n);
    if n == SAFE_ATTEMPTS {
      BackoffOverflowExample();
    }
    SquareMonotone(1, n);
  }

  lemma SubmitOne(r: Record) returns (w: World)
    requires Fresh(r) && r.runAfter == 0
    ensures Leads(Init(START), w) && Ready(w, r.id, r.maxAttempts, 0)
  {
    hide Leads;
    LeadsToItself(Init(START));
    LeadsOn(Init(START), Init(START), Submits(Register([r])));
    w := AfterRegister(Init(START), [r]);
    RegisteredTable(map[], [r]);
    assert w.jobs[[r][0].id] == r;
    LeadsOn(Init(START), w, Controls(Start));
    w := w.(worker := Top, ticker := Idle);
    assert IdsOf([r])[0] == r.id;
    ScheduleIsSimulated(w, 0);
    LeadsThrough(Init(START), w, Scheduled(w, 0));
    w := Scheduled(w, 0);
  }

  /** The one attempt of a turn at the current time that fails. */
  function Failing(w: World): World
    requires |w.queue| > 0 && w.queue[0] in w.jobs
  {
    AfterWorkerTurn(w, "", Some(""), w.now, w.now, w.now, w.now)
  }

  /** A failed attempt with another one left: the job waits for its backoff. */
  lemma FailsAndWaits(w: World, j: Id, limit: int, n: nat)
    requires Ready(w, j, limit, n) && n + 1 < limit
    ensures var w', pause := Failing(w), Backoff(n + 1);
      && w' == w.(jobs := w'.jobs, queue := w'.queue, pending := w'.pending, firstStart := w'.firstStart)
      && j in w'.jobs && w'.jobs[j].attempts == n + 1 && w'.jobs[j].maxAttempts == limit
      && w'.jobs[j].runAfter == w.now + pause
      && (if Due(w'.jobs[j], w.now) then w'.queue == [j] && w'.pending == [] else w'.queue == [] && w'.pending == [j])
      && w'.firstStart == (if n == 0 then w.firstStart[j := w.now] else w.firstStart)
  {
  }

  lemma FlushesOne(w: World, j: Id)
    requires w.pending == [j] && w.queue == [] && !w.closed && j in w.jobs && w.now >= w.jobs[j].runAfter
    ensures AfterFlush(w) == w.(queue := [j], pending := [])
  {
    assert j in DueIds(w);
    assert Select([j], DueIds(w)) == [j] && Reject([j], DueIds(w)) == [];
    var init := [j][..|[j]| - 1];
    assert init == [] && EnqueueAll([], false, init) == [] && Refused([], false, init) == {};
    assert EnqueueAll([], false, [j]) == [j] && Refused([], false, [j]) == {};
  }

  /** When its time has come a flush puts the job back into the queue. */
  lemma FlushOne(w: World, j: Id) returns (w': World)
    requires w.ticker == Idle && w.pending == [j] && w.queue == [] && !w.closed
    requires j in w.jobs && w.now < w.jobs[j].runAfter
    ensures Leads(w, w') && w' == w.(now := w.jobs[j].runAfter, queue := [j], pending := [])
  {
    hide Leads, AfterFlush;
    LeadsToItself(w);
    LeadsOn(w, w, Controls(Tick(w.jobs[j].runAfter)));
    var v := w.(now := w.jobs[j].runAfter);
    FlushIsSimulated(v);
    FlushesOne(v, j);
    w' := v.(queue := [j], pending := []);
    LeadsThrough(w, v, w');
  }

  lemma NextReady(w: World, j: Id, limit: int, n: nat) returns (w': World)
    requires Ready(w, j, limit, n) && n + 1 < limit
    ensures Leads(w, w') && Ready(w', j, limit, n + 1)
  {
    hide Leads, AfterWorkerTurn, Backoff;
    TurnIsSimulated(w, "", Some(""), w.now, w.now, w.now, w.now);
    FailsAndWaits(w, j, limit, n);
    w' := Failing(w);
    var gap := w.now - w'.firstStart[j];
    NextGap(gap, n + 1, if Backoff(n + 1) > 0 then Backoff(n + 1) else 0);
    if !Due(w'.jobs[j], w.now) {
      var v := w';
      w' := FlushOne(v, j);
      LeadsThrough(w, v, w');
    } else {
      assert Backoff(n + 1) <= 0 || w.now + Backoff(n + 1) == 0;
    }
  }

  lemma NextReadyFrom(a: World, v: World, j: Id, limit: int, n: nat) returns (w: World)
    requires Leads(a, v) && Ready(v, j, limit, n) && n + 1 < limit
    ensures Leads(a, w) && Ready(w, j, limit, n + 1)
  {
    w := NextReady(v, j, limit, n);
    LeadsThrough(a, v, w);
  }

  lemma {:induction false} AllReady(a: World, first: World, j: Id, limit: int, n: nat) returns (w: World)
    requires Leads(a, first) && Ready(first, j, limit, 0) && n < limit
    ensures Leads(a, w) && Ready(w, j, limit, n)
  {
    hide Leads, Delay;
    if n == 0 {
      w := first;
    } else {
      w := AllReady(a, first, j, limit, n - 1);
      w := NextReadyFrom(a, w, j, limit, n - 1);
    }
  }

  lemma BeginReady(a: World, v: World, j: Id, limit: int, n: nat) returns (w: World)
    requires Leads(a, v) && Ready(v, j, limit, n)
    ensures Leads(a, w) && j in w.jobs && w.jobs[j].attempts == n + 1 && j in w.firstStart
    ensures AsEarly(w.jobs[j].startedAt - w.firstStart[j], n + 1)
  {
    hide Leads;
    LeadsToBegun(v, j, v.now);
    w := AfterBegin(v.(now := v.now, queue := v.queue[1..]), j);
    LeadsThrough(a, v, w);
  }

  /** For every n there is a run in which the n-th attempt starts exactly the sum
      of the backoffs after the first, or less if n exceeds 303701. */
  lemma NthAttemptAsEarly(r: Record, n: nat) returns (w: World)
    requires Fresh(r) && r.runAfter == 0 && 1 <= n <= r.maxAttempts
    ensures Leads(Init(START), w) && r.id in w.jobs && w.jobs[r.id].attempts == n && r.id in w.firstStart
    ensures AsEarly(w.jobs[r.id].startedAt - w.firstStart[r.id], n)
  {
    var start := Init(START);
    w := SubmitOne(r);
    w := AllReady(start, w, r.id, r.maxAttempts, n - 1);
    w := BeginReady(start, w, r.id, r.maxAttempts, n - 1);
  }

  // ---- The bound is exact ----

  /** In every run the n-th attempt of a job starts at least the sum of the
      backoffs after its first. */
  ghost predicate AlwaysSpaced(n: nat) {
    forall ws: seq<World>, steps, j :: IsRun(ws, steps) && ws[0].now > 0 ==> SpacedAt(ws[|steps|], j, n)
  }

  ghost predicate SpacedAt(w: World, j: Id, n: nat) {
    j in w.jobs && w.jobs[j].attempts == n ==>
      j in w.firstStart && w.jobs[j].startedAt - w.firstStart[j] >= Delay(n)
  }

  /** The quadratic spacing holds for the n-th attempt in every run if and only
      if n is at most 303701. */
  lemma SpacingHoldsIff(n: nat)
    requires n >= 1
    ensures AlwaysSpaced(n) <==> n <= 303701
  {
    if n <= SAFE_ATTEMPTS {
      forall ws: seq<World>, steps, j | IsRun(ws, steps) && ws[0].now > 0 ensures SpacedAt(ws[|steps|], j, n) {
        TimingHolds(ws, steps, |steps|);
        assert j in ws[|steps|].jobs ==> SpacedRecord(ws[|steps|], j);
      }
    } else {
      var r := Blank("", "", "", START).(maxAttempts := n);
      var w := NthAttemptAsEarly(r, n);
      var ws, steps :| IsPath(ws, steps) && ws[0] == Init(START) && ws[|steps|] == w;
      assert IsRun(ws, steps) && !SpacedAt(ws[|steps|], r.id, n);
    }
  }
}
