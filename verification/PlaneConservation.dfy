/** Every accepted job is in exactly one place at every moment. */
module PlaneConservation {
  import opened Collections
  import opened Graphs
  import opened Jobs
  import opened Results
  import opened Queues
  import opened Schedulers
  import opened PlaneSteps

  function InHand(s: Submitter): seq<Id> {
    if s.next <= |s.order| then s.order[s.next..] else []
  }

  ghost function HandsOf(subs: seq<Submitter>): multiset<Id> {
    if subs == [] then multiset{}
    else HandsOf(subs[..|subs| - 1]) + multiset(InHand(subs[|subs| - 1]))
  }

  function Batch(t: Ticker): seq<Id> {
    if t.Flushing? then t.batch else []
  }

  function InWorker(p: Worker): seq<Id> {
    if p.Holding? || p.Handling? || p.Rescheduling? then [p.job] else []
  }

  predicate IsTerminal(w: World, x: Id) {
    x in w.jobs && Terminal(w.jobs[x].state)
  }

  /** How often `x` occurs in all the places a job can be. */
  ghost function Places(w: World, x: Id): nat {
    HandsOf(w.submitters)[x] + multiset(w.pending)[x] + multiset(Batch(w.ticker))[x]
    + multiset(w.queue)[x] + multiset(InWorker(w.worker))[x]
    + OneIf(IsTerminal(w, x)) + OneIf(x in w.dropped)
  }

  ghost predicate Conserved(w: World) {
    && (forall k :: 0 <= k < |w.submitters| ==> w.submitters[k].next <= |w.submitters[k].order|)
    && (forall x :: Places(w, x) == OneIf(x in w.jobs))
  }

  lemma {:induction false} HandsUpdate(subs: seq<Submitter>, k: nat, s: Submitter, x: Id)
    requires k < |subs|
    ensures HandsOf(subs[k := s])[x] + multiset(InHand(subs[k]))[x]
         == HandsOf(subs)[x] + multiset(InHand(s))[x]
  {
    var n := |subs| - 1;
    var updated := subs[k := s];
    assert HandsOf(subs)[x] == HandsOf(subs[..n])[x] + multiset(InHand(subs[n]))[x];
    assert HandsOf(updated)[x] == HandsOf(updated[..n])[x] + multiset(InHand(updated[n]))[x];
    if k == n {
      assert updated[..n] == subs[..n];
    } else {
      HandsUpdate(subs[..n], k, s, x);
      assert updated[..n] == subs[..n][k := s];
    }
  }

  lemma HandAdvances(s: Submitter, ok: bool, x: Id)
    requires s.next < |s.order|
    ensures multiset(InHand(s))[x] == multiset(InHand(Advance(s, ok)))[x] + OneIf(s.order[s.next] == x)
  {
    assert InHand(s) == [s.order[s.next]] + InHand(Advance(s, ok));
  }

  lemma HandsAdvance(subs: seq<Submitter>, k: nat, ok: bool, x: Id)
    requires k < |subs| && subs[k].next < |subs[k].order|
    ensures HandsOf(subs)[x] == HandsOf(subs[k := Advance(subs[k], ok)])[x] + OneIf(NextOf(subs[k]) == x)
  {
    HandsUpdate(subs, k, Advance(subs[k], ok), x);
    HandAdvances(subs[k], ok, x);
  }

  lemma DistinctCount(s: seq<Id>, x: Id)
    requires Distinct(s)
    ensures multiset(s)[x] == OneIf(x in s)
  {
    if s != [] {
      var t, last := s[..|s| - 1], s[|s| - 1];
      DistinctCount(t, x);
      assert s == t + [last];
      assert last !in t;
    }
  }

  /** A job is where it is and nowhere else. */
  lemma OnlyPlace(w: World, x: Id)
    requires Conserved(w)
    ensures Places(w, x) <= 1
    ensures x !in w.jobs ==> x !in w.dropped
  {
  }

  lemma {:induction false} HandsInclude(subs: seq<Submitter>, k: nat, x: Id)
    requires k < |subs|
    ensures HandsOf(subs)[x] >= multiset(InHand(subs[k]))[x]
  {
    if k < |subs| - 1 {
      HandsInclude(subs[..|subs| - 1], k, x);
    }
  }

  lemma HandContains(w: World, k: nat, x: Id)
    requires k < |w.submitters| && w.submitters[k].next < |w.submitters[k].order|
    requires x == NextOf(w.submitters[k])
    ensures HandsOf(w.submitters)[x] >= 1
  {
    assert InHand(w.submitters[k])[0] == x;
    HandsInclude(w.submitters, k, x);
  }

  lemma RegisterTerminal(w: World, records: seq<Record>, x: Id)
    requires FreshRecords(w.jobs, records)
    ensures var m := Registered(w.jobs, records);
      && (x in m <==> x in w.jobs || x in IdsOf(records))
      && ((x in m && Terminal(m[x].state)) <==> IsTerminal(w, x))
      && !(x in w.jobs && x in IdsOf(records))
  {
    RegisteredTable(w.jobs, records);
    if x in IdsOf(records) {
      var i :| 0 <= i < |records| && IdsOf(records)[i] == x;
      assert records[i].id == x && Fresh(records[i]);
    }
  }

  lemma RegisterCounts(w: World, records: seq<Record>, x: Id)
    requires Conserved(w) && FreshRecords(w.jobs, records)
    ensures var w' := AfterRegister(w, records); Places(w', x) == OneIf(x in w'.jobs)
  {
    var s := NewSubmitter(w, records);
    assert InHand(s) == IdsOf(records);
    DistinctCount(IdsOf(records), x);
    RegisterTerminal(w, records, x);
    OnlyPlace(w, x);
  }

  lemma DecideCounts(w: World, k: nat, x: Id)
    requires Conserved(w) && HasCall(w, k, Undecided)
    ensures var w' := AfterDecide(w, k); Places(w', x) == OneIf(x in w'.jobs)
  {
    HandsUpdate(w.submitters, k, AfterDecide(w, k).submitters[k], x);
    OnlyPlace(w, x);
  }

  lemma AdvanceRemovesPlace(w: World, k: nat, ok: bool, x: Id)
    requires k < |w.submitters| && w.submitters[k].next < |w.submitters[k].order|
    ensures Places(SetSubmitter(w, k, Advance(w.submitters[k], ok)), x) + OneIf(NextOf(w.submitters[k]) == x)
         == Places(w, x)
  {
    HandsAdvance(w.submitters, k, ok, x);
  }

  lemma PutCounts(w: World, k: nat, x: Id)
    requires Conserved(w) && HasCall(w, k, ToQueue)
    ensures var w' := AfterPut(w, k); Places(w', x) == OneIf(x in w'.jobs)
  {
    var j := NextOf(w.submitters[k]);
    HandContains(w, k, j);
    OnlyPlace(w, j);
    AdvanceRemovesPlace(Enqueued(w, j), k, EnqueueOutcome(w.queue, w.closed).Pass?, x);
  }

  lemma HoldCounts(w: World, k: nat, x: Id)
    requires Conserved(w) && HasCall(w, k, ToPending)
    ensures var w' := AfterHold(w, k); Places(w', x) == OneIf(x in w'.jobs)
  {
    var s := w.submitters[k];
    HandsAdvance(w.submitters, k, true, x);
    OnlyPlace(w, x);
  }

  lemma TakeCounts(w: World, x: Id)
    requires Conserved(w) && w.worker == Polling
    ensures var w' := AfterTake(w); Places(w', x) == OneIf(x in w'.jobs)
  {
    if |w.queue| > 0 {
      assert w.queue == [w.queue[0]] + w.queue[1..];
      assert AfterTake(w) == w.(queue := w.queue[1..], worker := Holding(w.queue[0]));
    } else {
      assert AfterTake(w) == w.(worker := Waiting);
      SamePlaces(w, w.(worker := Waiting), x);
    }
  }

  lemma BeginCounts(w: World, j: Id, x: Id)
    requires Conserved(w) && w.worker == Holding(j) && j in w.jobs
    ensures var w' := AfterBegin(w, j); Places(w', x) == OneIf(x in w'.jobs)
  {
    OnlyPlace(w, j);
    OnlyPlace(w, x);
  }

  lemma OkCounts(w: World, j: Id, result: string, finishedAt: Time, x: Id)
    requires Conserved(w) && w.worker == Handling(j) && j in w.jobs
    ensures var w' := AfterOk(w, j, result, finishedAt); Places(w', x) == OneIf(x in w'.jobs)
  {
    OnlyPlace(w, j);
    OnlyPlace(w, x);
  }

  lemma ErrorCounts(w: World, j: Id, result: string, error: string, finishedAt: Time, x: Id)
    requires Conserved(w) && w.worker == Handling(j) && j in w.jobs
    ensures var w' := AfterError(w, j, result, error, finishedAt); Places(w', x) == OneIf(x in w'.jobs)
  {
    OnlyPlace(w, j);
    OnlyPlace(w, x);
  }

  lemma WorkerPutCounts(w: World, j: Id, x: Id)
    requires Conserved(w) && InWorker(w.worker) == [j]
    ensures var w' := Enqueued(w, j).(worker := Top); Places(w', x) == OneIf(x in w'.jobs)
  {
    OnlyPlace(w, j);
    OnlyPlace(w, x);
  }

  lemma WorkerHoldCounts(w: World, j: Id, x: Id)
    requires Conserved(w) && InWorker(w.worker) == [j]
    ensures var w' := w.(pending := w.pending + [j], worker := Top); Places(w', x) == OneIf(x in w'.jobs)
  {
    OnlyPlace(w, x);
  }

  lemma PartitionStepCounts(w: World, x: Id)
    requires Conserved(w) && w.ticker == Idle
    ensures var w' := AfterPartition(w); Places(w', x) == OneIf(x in w'.jobs)
  {
    OnlyPlace(w, x);
    PartitionCounts(w.pending, DueIds(w), x);
  }

  lemma FlushCounts(w: World, j: Id, rest: seq<Id>, x: Id)
    requires Conserved(w) && w.ticker == Flushing([j] + rest)
    ensures var w' := Enqueued(w, j).(ticker := Flushing(rest)); Places(w', x) == OneIf(x in w'.jobs)
  {
    assert j in Batch(w.ticker);
    OnlyPlace(w, j);
    OnlyPlace(w, x);
  }

  lemma ConservedSubmit(w: World, st: SubmitStep)
    requires Conserved(w) && SubmitEnabled(w, st)
    ensures Conserved(DoSubmit(w, st))
  {
    hide Places, HandsOf;
    forall x ensures Places(DoSubmit(w, st), x) == OneIf(x in DoSubmit(w, st).jobs) {
      match st
      case Register(records) => RegisterCounts(w, records, x);
      case Decide(k) => DecideCounts(w, k, x);
      case Put(k) => PutCounts(w, k, x);
      case Hold(k) => HoldCounts(w, k, x);
    }
  }

  /** Steps that move no job and touch no list. */
  lemma SamePlaces(w: World, w': World, x: Id)
    requires Conserved(w) && w'.jobs == w.jobs && w'.submitters == w.submitters
    requires w'.pending == w.pending && w'.queue == w.queue && w'.dropped == w.dropped
    requires Batch(w'.ticker) == Batch(w.ticker) && InWorker(w'.worker) == InWorker(w.worker)
    ensures Places(w', x) == OneIf(x in w'.jobs)
  {
    OnlyPlace(w, x);
  }

  lemma ConservedWork(w: World, st: WorkerStep)
    requires Conserved(w) && WorkerEnabled(w, st)
    ensures Conserved(DoWork(w, st))
  {
    hide Places, HandsOf;
    forall x ensures Places(DoWork(w, st), x) == OneIf(x in DoWork(w, st).jobs) {
      match st
      case TakeNext => TakeCounts(w, x);
      case BeginAttempt => BeginCounts(w, w.worker.job, x);
      case AttemptOk(result, at) => OkCounts(w, w.worker.job, result, at, x);
      case AttemptError(result, error, at) => ErrorCounts(w, w.worker.job, result, error, at, x);
      case WorkerPut => WorkerPutCounts(w, w.worker.job, x);
      case WorkerHold => WorkerHoldCounts(w, w.worker.job, x);
      case _ => SamePlaces(w, DoWork(w, st), x);
    }
  }

  lemma ConservedTicker(w: World, st: TickerStep)
    requires Conserved(w) && TickerEnabled(w, st)
    ensures Conserved(DoTicker(w, st))
  {
    hide Places, HandsOf;
    forall x ensures Places(DoTicker(w, st), x) == OneIf(x in DoTicker(w, st).jobs) {
      match st
      case Partition => PartitionStepCounts(w, x);
      case FlushNext =>
        var b := w.ticker.batch;
        assert b == [b[0]] + b[1..];
        FlushCounts(w, b[0], b[1..], x);
      case _ => SamePlaces(w, DoTicker(w, st), x);
    }
  }

  lemma ConservedControl(w: World, st: ControlStep)
    requires Conserved(w) && ControlEnabled(w, st)
    ensures Conserved(DoControl(w, st))
  {
    hide Places, HandsOf;
    forall x ensures Places(DoControl(w, st), x) == OneIf(x in DoControl(w, st).jobs) {
      SamePlaces(w, DoControl(w, st), x);
    }
  }

  lemma ConservedStep(w: World, st: Step)
    requires Conserved(w) && Enabled(w, st)
    ensures Conserved(Do(w, st))
  {
    match st
    case Submits(s) => ConservedSubmit(w, s);
    case Works(p) => ConservedWork(w, p);
    case Ticks(f) => ConservedTicker(w, f);
    case Controls(c) => ConservedControl(w, c);
  }

  lemma ConservedInit(now: Time)
    ensures Conserved(Init(now))
  {
    forall x ensures Places(Init(now), x) == 0 {
      assert HandsOf([]) == multiset{};
    }
  }

  datatype Place = WithSubmitter | Delayed | InBatch | Queued | WithWorker | Finished | Lost

  ghost predicate At(w: World, x: Id, p: Place) {
    match p
    case WithSubmitter => x in HandsOf(w.submitters)
    case Delayed => x in w.pending
    case InBatch => x in Batch(w.ticker)
    case Queued => x in w.queue
    case WithWorker => x in InWorker(w.worker)
    case Finished => IsTerminal(w, x)
    case Lost => x in w.dropped
  }

  /** Conservation in terms of places: each accepted job is in exactly one, and
      nothing else is anywhere. */
  lemma ExactlyOnePlace(w: World, x: Id)
    requires Conserved(w)
    ensures x in w.jobs <==> exists p :: At(w, x, p)
    ensures forall p, q :: At(w, x, p) && At(w, x, q) ==> p == q
  {
    OnlyPlace(w, x);
    if x in w.jobs {
      var p := if x in HandsOf(w.submitters) then WithSubmitter
               else if x in w.pending then Delayed
               else if x in Batch(w.ticker) then InBatch
               else if x in w.queue then Queued
               else if x in InWorker(w.worker) then WithWorker
               else if IsTerminal(w, x) then Finished else Lost;
      assert At(w, x, p);
    }
  }

  /** The job that a step offers to the queue, if any. */
  ghost function Offered(w: World, st: Step): Option<Id> {
    match st
    case Submits(Put(k)) => if HasCall(w, k, ToQueue) then Some(NextOf(w.submitters[k])) else None
    case Works(WorkerPut) => if w.worker.Rescheduling? then Some(w.worker.job) else None
    case Ticks(FlushNext) => if w.ticker.Flushing? && |w.ticker.batch| > 0 then Some(w.ticker.batch[0]) else None
    case _ => None
  }

  /** A job is lost exactly when it is offered to a queue that is closed or full. */
  lemma DroppedIffRefused(w: World, st: Step)
    requires Enabled(w, st)
    ensures Do(w, st).dropped == w.dropped
         + (if Offered(w, st).Some? && (w.closed || |w.queue| >= 1024) then {Offered(w, st).value} else {})
  {
    match st
    case Submits(s) => assert Do(w, st) == DoSubmit(w, s);
    case Works(p) => assert Do(w, st) == DoWork(w, p);
    case Ticks(f) => assert Do(w, st) == DoTicker(w, f);
    case Controls(c) => assert Do(w, st) == DoControl(w, c);
  }

  // ---- Capacity ----

  /** Accepted jobs that are neither finished nor lost. */
  ghost function Live(w: World): set<Id> {
    set j | j in w.jobs && !IsTerminal(w, j) && j !in w.dropped
  }

  lemma QueuePlusOneIsLive(w: World, j: Id)
    requires Conserved(w)
    requires Places(w, j) == 1 && multiset(w.queue)[j] == 0 && !IsTerminal(w, j) && j !in w.dropped
    ensures |w.queue| < |Live(w)|
  {
    var q := multiset(w.queue + [j]);
    forall x ensures q[x] <= multiset(Live(w))[x] {
      assert q[x] == multiset(w.queue)[x] + OneIf(x == j);
      assert Places(w, x) == OneIf(x in w.jobs);
    }
    SubMultisetSize(q, multiset(Live(w)));
  }

  lemma SubMultisetSize(a: multiset<Id>, b: multiset<Id>)
    requires forall x :: a[x] <= b[x]
    ensures |a| <= |b|
  {
    assert a <= b;
    assert b == a + (b - a);
  }

  lemma OfferedIsElsewhere(w: World, st: Step)
    requires Conserved(w) && Enabled(w, st) && Offered(w, st).Some?
    ensures var j := Offered(w, st).value;
      Places(w, j) == 1 && multiset(w.queue)[j] == 0 && !IsTerminal(w, j) && j !in w.dropped
  {
    var j := Offered(w, st).value;
    OnlyPlace(w, j);
    match st
    case Submits(Put(k)) => HandContains(w, k, j);
    case Works(WorkerPut) => assert j in InWorker(w.worker);
    case Ticks(FlushNext) => assert j in Batch(w.ticker);
  }

  /** While at most 1024 accepted jobs are unfinished, the queue has room for
      whatever job is about to be enqueued, so only a closed queue refuses. */
  lemma EnoughRoom(w: World, st: Step)
    requires Conserved(w) && Enabled(w, st) && |Live(w)| <= 1024 && Offered(w, st).Some?
    ensures EnqueueOutcome(w.queue, w.closed) == if w.closed then Fail(QueueClosed) else Pass
  {
    OfferedIsElsewhere(w, st);
    QueuePlusOneIsLive(w, Offered(w, st).value);
  }
}
