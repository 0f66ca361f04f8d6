/** The execution plane as a concurrent step system: submitters, the scheduler
    goroutine, the worker goroutine and `Stop` interleave atomic steps over the
    job table, the waiting list and the bounded queue. */
module PlaneSteps {
  import opened Graphs
  import opened Jobs
  import opened Queues
  import opened Schedulers

  /** How far one call of `Schedule` has got: the clock is read first, the queue
      or the waiting list is touched later. */
  datatype Call = Undecided | ToQueue | ToPending

  /** A call of `Submit` (one job) or `SubmitDAG`: `order[next..]` is still in
      the submitter's hand. `records` and `at` are history: what was registered
      and when. */
  datatype Submitter =
    Submitter(order: seq<Id>, next: nat, call: Call, failed: bool, records: seq<Record>, at: Time)

  datatype Worker =
    | WorkerOff
    | Top
    | Polling
    | Waiting
    | Holding(job: Id)
    | Handling(job: Id)
    | Rescheduling(job: Id, call: Call)
    | WorkerGone

  datatype Ticker = TickerOff | Idle | Flushing(batch: seq<Id>) | TickerGone

  datatype Stopper = NotStopping | AwaitWorker | AwaitTicker | AwaitClose | Stopped

  /** `dropped` and `firstStart` are history: the jobs refused by the queue, and
      when each job's first attempt began. */
  datatype World = World(
    now: Time, jobs: map<Id, Record>, submitters: seq<Submitter>, pending: seq<Id>,
    queue: seq<Id>, closed: bool, worker: Worker, ticker: Ticker, stopper: Stopper,
    cancelled: bool, dropped: set<Id>, firstStart: map<Id, Time>)

  function Init(now: Time): World {
    World(now, map[], [], [], [], false, WorkerOff, TickerOff, NotStopping, false, {}, map[])
  }

  datatype SubmitStep = Register(records: seq<Record>) | Decide(k: nat) | Put(k: nat) | Hold(k: nat)

  datatype WorkerStep =
    | CheckContext
    | TakeNext
    | Wake
    | Quit
    | BeginAttempt
    | AttemptOk(result: string, finishedAt: Time)
    | AttemptError(result: string, error: string, finishedAt: Time)
    | WorkerDecide
    | WorkerPut
    | WorkerHold

  datatype TickerStep = Partition | FlushNext | FlushDone | TickerQuit

  datatype ControlStep =
    | Tick(t: Time)
    | Start
    | CancelContext
    | StopBegin
    | StopWorkerDone
    | StopTickerDone
    | StopClose

  datatype Step =
    | Submits(s: SubmitStep)
    | Works(p: WorkerStep)
    | Ticks(f: TickerStep)
    | Controls(c: ControlStep)

  function IdsOf(records: seq<Record>): (ids: seq<Id>)
    ensures |ids| == |records| && forall i :: 0 <= i < |ids| ==> ids[i] == records[i].id
  {
    seq(|records|, i requires 0 <= i < |records| => records[i].id)
  }

  /** The table after registering `records`. */
  function Registered(jobs: map<Id, Record>, records: seq<Record>): (m: map<Id, Record>) {
    if records == [] then jobs
    else Registered(jobs, records[..|records| - 1])[records[|records| - 1].id := records[|records| - 1]]
  }

  /** Submitted once, fresh from `NewJob`, under new identifiers. */
  ghost predicate FreshRecords(jobs: map<Id, Record>, records: seq<Record>) {
    && (forall i :: 0 <= i < |records| ==> Fresh(records[i]) && records[i].id !in jobs)
    && (forall i, j :: 0 <= i < j < |records| ==> records[i].id != records[j].id)
  }

  predicate HasCall(w: World, k: nat, call: Call) {
    && k < |w.submitters|
    && w.submitters[k].next < |w.submitters[k].order|
    && !w.submitters[k].failed
    && w.submitters[k].call == call
    && w.submitters[k].order[w.submitters[k].next] in w.jobs
  }

  /** The pending jobs a flush at the current time takes. */
  function DueIds(w: World): set<Id> {
    set j | j in w.pending && j in w.jobs && w.now >= w.jobs[j].runAfter
  }

  function Decision(w: World, j: Id): Call
    requires j in w.jobs
  {
    if Due(w.jobs[j], w.now) then ToQueue else ToPending
  }

  /** `Enqueue` at the queue; a refused job is recorded as dropped. */
  function Enqueued(w: World, j: Id): World {
    w.(queue := AfterEnqueue(w.queue, w.closed, j),
       dropped := if EnqueueOutcome(w.queue, w.closed).Fail? then w.dropped + {j} else w.dropped)
  }

  // ---- Submitters ----

  /** The submitter's call returned: the next job, or an error that ends it. */
  function Advance(s: Submitter, ok: bool): Submitter {
    s.(next := s.next + 1, call := Undecided, failed := !ok)
  }

  function SetSubmitter(w: World, k: nat, s: Submitter): World
    requires k < |w.submitters|
  {
    w.(submitters := w.submitters[k := s])
  }

  function NextOf(s: Submitter): Id
    requires s.next < |s.order|
  {
    s.order[s.next]
  }

  ghost function NewSubmitter(w: World, records: seq<Record>): Submitter {
    Submitter(IdsOf(records), 0, Undecided, false, records, w.now)
  }

  ghost function AfterRegister(w: World, records: seq<Record>): World {
    w.(jobs := Registered(w.jobs, records), submitters := w.submitters + [NewSubmitter(w, records)])
  }

  function AfterDecide(w: World, k: nat): World
    requires HasCall(w, k, Undecided)
  {
    var s := w.submitters[k];
    SetSubmitter(w, k, s.(call := Decision(w, NextOf(s))))
  }

  function AfterPut(w: World, k: nat): World
    requires HasCall(w, k, ToQueue)
  {
    var s := w.submitters[k];
    SetSubmitter(Enqueued(w, NextOf(s)), k, Advance(s, EnqueueOutcome(w.queue, w.closed).Pass?))
  }

  function AfterHold(w: World, k: nat): World
    requires HasCall(w, k, ToPending)
  {
    var s := w.submitters[k];
    SetSubmitter(w.(pending := w.pending + [NextOf(s)]), k, Advance(s, true))
  }

  ghost predicate SubmitEnabled(w: World, st: SubmitStep) {
    match st
    case Register(records) => FreshRecords(w.jobs, records)
    case Decide(k) => HasCall(w, k, Undecided)
    case Put(k) => HasCall(w, k, ToQueue)
    case Hold(k) => HasCall(w, k, ToPending)
  }

  ghost function DoSubmit(w: World, st: SubmitStep): World
    requires SubmitEnabled(w, st)
  {
    match st
    case Register(records) => AfterRegister(w, records)
    case Decide(k) => AfterDecide(w, k)
    case Put(k) => AfterPut(w, k)
    case Hold(k) => AfterHold(w, k)
  }

  // ---- The worker goroutine ----

  function AfterTake(w: World): World {
    var d := DequeueOutcome(w.queue, w.closed);
    w.(queue := AfterDequeue(w.queue), worker := if d.Got? then Holding(d.item) else Waiting)
  }

  function AfterBegin(w: World, j: Id): World
    requires j in w.jobs
  {
    w.(jobs := w.jobs[j := Begin(w.jobs[j], w.now)], worker := Handling(j),
       firstStart := if j in w.firstStart then w.firstStart else w.firstStart[j := w.now])
  }

  function AfterOk(w: World, j: Id, result: string, finishedAt: Time): World
    requires j in w.jobs
  {
    w.(jobs := w.jobs[j := Succeed(w.jobs[j].(result := result), finishedAt)], worker := Top)
  }

  function AfterError(w: World, j: Id, result: string, error: string, finishedAt: Time): World
    requires j in w.jobs
  {
    var r := FailAttempt(w.jobs[j].(result := result), error, finishedAt, w.now);
    w.(jobs := w.jobs[j := r], worker := if r.state == Retrying then Rescheduling(j, Undecided) else Top)
  }

  ghost predicate WorkerEnabled(w: World, st: WorkerStep) {
    match st
    case CheckContext => w.worker == Top
    case TakeNext => w.worker == Polling
    case Wake => w.worker == Waiting
    case Quit => w.worker == Waiting && w.cancelled
    case BeginAttempt => w.worker.Holding? && w.worker.job in w.jobs
    case AttemptOk(_, _) => w.worker.Handling? && w.worker.job in w.jobs
    case AttemptError(_, _, _) => w.worker.Handling? && w.worker.job in w.jobs
    case WorkerDecide => w.worker.Rescheduling? && w.worker.call == Undecided && w.worker.job in w.jobs
    case WorkerPut => w.worker.Rescheduling? && w.worker.call == ToQueue
    case WorkerHold => w.worker.Rescheduling? && w.worker.call == ToPending
  }

  ghost function DoWork(w: World, st: WorkerStep): World
    requires WorkerEnabled(w, st)
  {
    match st
    case CheckContext => w.(worker := if w.cancelled then WorkerGone else Polling)
    case TakeNext => AfterTake(w)
    case Wake => w.(worker := Top)
    case Quit => w.(worker := WorkerGone)
    case BeginAttempt => AfterBegin(w, w.worker.job)
    case AttemptOk(result, finishedAt) => AfterOk(w, w.worker.job, result, finishedAt)
    case AttemptError(result, error, finishedAt) => AfterError(w, w.worker.job, result, error, finishedAt)
    case WorkerDecide => w.(worker := Rescheduling(w.worker.job, Decision(w, w.worker.job)))
    case WorkerPut => Enqueued(w, w.worker.job).(worker := Top)
    case WorkerHold => w.(pending := w.pending + [w.worker.job], worker := Top)
  }

  // ---- The scheduler goroutine ----

  function AfterPartition(w: World): World {
    w.(pending := Reject(w.pending, DueIds(w)), ticker := Flushing(Select(w.pending, DueIds(w))))
  }

  ghost predicate TickerEnabled(w: World, st: TickerStep) {
    match st
    case Partition => w.ticker == Idle
    case FlushNext => w.ticker.Flushing? && |w.ticker.batch| > 0
    case FlushDone => w.ticker == Flushing([])
    case TickerQuit => w.ticker == Idle && w.cancelled
  }

  ghost function DoTicker(w: World, st: TickerStep): World
    requires TickerEnabled(w, st)
  {
    match st
    case Partition => AfterPartition(w)
    case FlushNext => Enqueued(w, w.ticker.batch[0]).(ticker := Flushing(w.ticker.batch[1..]))
    case FlushDone => w.(ticker := Idle)
    case TickerQuit => w.(ticker := TickerGone)
  }

  // ---- Clock, start and stop ----

  ghost predicate ControlEnabled(w: World, st: ControlStep) {
    match st
    case Tick(t) => t >= w.now
    case Start => w.worker == WorkerOff && w.ticker == TickerOff
    case CancelContext => true
    case StopBegin => w.stopper == NotStopping && w.worker != WorkerOff
    case StopWorkerDone => w.stopper == AwaitWorker && w.worker == WorkerGone
    case StopTickerDone => w.stopper == AwaitTicker && w.ticker == TickerGone
    case StopClose => w.stopper == AwaitClose
  }

  ghost function DoControl(w: World, st: ControlStep): World
    requires ControlEnabled(w, st)
  {
    match st
    case Tick(t) => w.(now := t)
    case Start => w.(worker := Top, ticker := Idle)
    case CancelContext => w.(cancelled := true)
    case StopBegin => w.(cancelled := true, stopper := AwaitWorker)
    case StopWorkerDone => w.(stopper := AwaitTicker)
    case StopTickerDone => w.(stopper := AwaitClose)
    case StopClose => w.(closed := true, stopper := Stopped)
  }

  ghost predicate Enabled(w: World, st: Step) {
    match st
    case Submits(s) => SubmitEnabled(w, s)
    case Works(p) => WorkerEnabled(w, p)
    case Ticks(f) => TickerEnabled(w, f)
    case Controls(c) => ControlEnabled(w, c)
  }

  ghost function Do(w: World, st: Step): World
    requires Enabled(w, st)
  {
    match st
    case Submits(s) => DoSubmit(w, s)
    case Works(p) => DoWork(w, p)
    case Ticks(f) => DoTicker(w, f)
    case Controls(c) => DoControl(w, c)
  }

  /** `ws` are the states passed through by `steps`. */
  ghost predicate IsPath(ws: seq<World>, steps: seq<Step>) {
    && |ws| == |steps| + 1
    && forall i :: 0 <= i < |steps| ==> Enabled(ws[i], steps[i]) && ws[i + 1] == Do(ws[i], steps[i])
  }

  ghost predicate IsRun(ws: seq<World>, steps: seq<Step>) {
    IsPath(ws, steps) && ws[0] == Init(ws[0].now)
  }

  ghost predicate Reachable(w: World) {
    exists ws, steps :: IsRun(ws, steps) && ws[|steps|] == w
  }

  lemma InitReachable(now: Time)
    ensures Reachable(Init(now))
  {
    assert IsRun([Init(now)], []);
  }

  lemma PathExtends(ws: seq<World>, steps: seq<Step>, st: Step)
    requires IsPath(ws, steps) && Enabled(ws[|steps|], st)
    ensures IsPath(ws + [Do(ws[|steps|], st)], steps + [st])
  {
    hide Do, Enabled;
    var ws', steps' := ws + [Do(ws[|steps|], st)], steps + [st];
    forall i | 0 <= i < |steps'| ensures Enabled(ws'[i], steps'[i]) && ws'[i + 1] == Do(ws'[i], steps'[i]) {
      if i < |steps| {
        assert Enabled(ws[i], steps[i]) && ws[i + 1] == Do(ws[i], steps[i]);
      }
    }
  }

  lemma StepReachable(w: World, st: Step)
    requires Reachable(w) && Enabled(w, st)
    ensures Reachable(Do(w, st))
  {
    hide Do, Enabled;
    var ws, steps :| IsRun(ws, steps) && ws[|steps|] == w;
    PathExtends(ws, steps, st);
    assert IsRun(ws + [Do(w, st)], steps + [st]);
  }

  lemma {:induction false} RegisteredTable(jobs: map<Id, Record>, records: seq<Record>)
    requires FreshRecords(jobs, records)
    ensures var m := Registered(jobs, records);
      && (forall j :: j in m <==> j in jobs || j in IdsOf(records))
      && (forall j :: j in jobs ==> m[j] == jobs[j])
      && (forall i :: 0 <= i < |records| ==> m[records[i].id] == records[i])
  {
    if records != [] {
      var init, last := records[..|records| - 1], records[|records| - 1];
      RegisteredTable(jobs, init);
      assert IdsOf(records) == IdsOf(init) + [last.id];
      forall i | 0 <= i < |records| ensures Registered(jobs, records)[records[i].id] == records[i] {
        assert i < |init| ==> init[i] == records[i];
      }
    }
  }
}
