/** Jobs of one submission: the first attempt of a job waits for the first
    attempts of the jobs before it that were due when submitted, and of no
    others. */
module PlaneOrder {
  import opened Collections
  import opened Graphs
  import opened Jobs
  import opened Queues
  import opened Schedulers
  import opened PlaneSteps
  import opened PlaneConservation
  import opened PlaneLifecycle

  predicate Unstarted(w: World, j: Id) {
    j in w.jobs && w.jobs[j].attempts == 0
  }

  /** The first attempt of `j` has ended. */
  predicate FirstDone(w: World, j: Id) {
    j in w.jobs && w.jobs[j].attempts >= 1 && !(w.jobs[j].attempts == 1 && w.jobs[j].state == Running)
  }

  /** The worker's job, if it holds or handles one, and then the queue. */
  function Line(w: World): seq<Id> {
    (if w.worker.Holding? || w.worker.Handling? then [w.worker.job] else []) + w.queue
  }

  ghost predicate Before(s: seq<Id>, u: Id, v: Id) {
    exists a, b :: 0 <= a < b < |s| && s[a] == u && s[b] == v
  }

  /** The i-th job was due when it was submitted. */
  predicate WasDue(s: Submitter, i: nat) {
    i < |s.records| && Due(s.records[i], s.at)
  }

  /** How far a job that was due at submission can be before its first attempt. */
  ghost predicate FirstInLine(w: World, s: Submitter, i: nat)
    requires i < |s.order|
  {
    || FirstDone(w, s.order[i])
    || s.order[i] in Line(w)
    || (s.failed && i + 1 == s.next && s.order[i] in w.dropped && Unstarted(w, s.order[i]))
  }

  /** `j` waits for a flush, or is being flushed. */
  predicate Held(w: World, j: Id) {
    j in w.pending || j in Batch(w.ticker)
  }

  /** `v` waits for the first attempt of `u`: it is not scheduled yet, or was
      refused, or is delayed, or is behind `u` in the line. */
  ghost predicate WaitsFor(w: World, s: Submitter, i: nat, k: nat)
    requires i < k < |s.order|
  {
    var u, v := s.order[i], s.order[k];
    || FirstDone(w, u)
    || (Unstarted(w, v) && (k >= s.next || v in w.dropped || Held(w, v) || Before(Line(w), u, v)))
  }

  ghost predicate StillDue(w: World, s: Submitter) {
    && (s.next < |s.order| && WasDue(s, s.next) ==> s.call != ToPending)
    && (forall i :: s.next <= i < |s.order| && WasDue(s, i) ==> s.order[i] in w.jobs && Due(w.jobs[s.order[i]], w.now))
  }

  ghost predicate SubmitterOrdered(w: World, s: Submitter) {
    && s.next <= |s.order| == |s.records|
    && Distinct(s.order)
    && (forall i :: 0 <= i < |s.order| ==> s.order[i] == s.records[i].id && s.order[i] in w.jobs)
    && StillDue(w, s)
    && (forall i :: 0 <= i < s.next && WasDue(s, i) ==> FirstInLine(w, s, i))
    && (forall i, k :: 0 <= i < k < |s.order| && WasDue(s, i) ==> WaitsFor(w, s, i, k))
  }

  ghost predicate Ordered(w: World) {
    forall k :: 0 <= k < |w.submitters| ==> SubmitterOrdered(w, w.submitters[k])
  }

  // ---- Preservation ----

  lemma BeforeGrows(s: seq<Id>, t: seq<Id>, u: Id, v: Id)
    requires Before(s, u, v) && s <= t
    ensures Before(t, u, v)
  {
    var a, b :| 0 <= a < b < |s| && s[a] == u && s[b] == v;
    assert t[a] == u && t[b] == v;
  }

  /** Records kept, the line at most extended, time not going back. */
  ghost predicate Grows(w: World, w': World) {
    && (forall j :: j in w.jobs ==> j in w'.jobs && w'.jobs[j] == w.jobs[j])
    && Line(w) <= Line(w')
    && w.dropped <= w'.dropped
    && (forall j :: Held(w, j) ==> Held(w', j))
    && w.now <= w'.now
  }

  lemma OrderedGrows(w: World, w': World, s: Submitter)
    requires SubmitterOrdered(w, s) && Grows(w, w')
    ensures SubmitterOrdered(w', s)
  {
    forall i | 0 <= i < s.next && WasDue(s, i) ensures FirstInLine(w', s, i) {
      assert FirstInLine(w, s, i);
    }
    forall i, k | 0 <= i < k < |s.order| && WasDue(s, i) ensures WaitsFor(w', s, i, k) {
      WaitGrows(w, w', s, i, k);
    }
  }

  lemma WaitGrows(w: World, w': World, s: Submitter, i: nat, k: nat)
    requires i < k < |s.order| && WaitsFor(w, s, i, k) && Grows(w, w')
    requires FirstDone(w, s.order[i]) || s.order[k] in w.jobs
    ensures WaitsFor(w', s, i, k)
  {
    if Before(Line(w), s.order[i], s.order[k]) {
      BeforeGrows(Line(w), Line(w'), s.order[i], s.order[k]);
    }
  }

  lemma AllOrderedGrow(w: World, w': World)
    requires Ordered(w) && Grows(w, w') && w'.submitters == w.submitters
    ensures Ordered(w')
  {
    forall k | 0 <= k < |w'.submitters| ensures SubmitterOrdered(w', w'.submitters[k]) {
      OrderedGrows(w, w', w.submitters[k]);
    }
  }

  /** The worker's job is neither in a hand nor anywhere else in the line. */
  lemma WorkerJobNotInHand(w: World, k: nat)
    requires Inv(w) && InWorker(w.worker) != [] && k < |w.submitters|
    ensures var s, j := w.submitters[k], w.worker.job;
      forall i :: s.next <= i < |s.order| ==> s.order[i] != j
  {
    var s := w.submitters[k];
    forall i | s.next <= i < |s.order| ensures s.order[i] != w.worker.job {
      HandNotElsewhere(w, k, i);
      WorkerJobLive(w);
    }
  }

  lemma DueCarriesOver(w: World, w': World, j: Id, s: Submitter)
    requires StillDue(w, s) && w'.now == w.now
    requires forall i :: s.next <= i < |s.order| ==> s.order[i] != j
    requires forall x :: x in w.jobs && x != j ==> x in w'.jobs && w'.jobs[x] == w.jobs[x]
    ensures StillDue(w', s)
  {
  }

  lemma OrderedBegin(w: World, j: Id, k: nat)
    requires Inv(w) && w.worker == Holding(j) && j in w.jobs
    requires k < |w.submitters| && SubmitterOrdered(w, w.submitters[k])
    ensures SubmitterOrdered(AfterBegin(w, j), w.submitters[k])
  {
    hide Conserved, HandsFresh, LifecycleOk;
    var w', s := AfterBegin(w, j), w.submitters[k];
    assert Line(w') == Line(w);
    WorkerJobLive(w);
    WorkerJobNotInHand(w, k);
    DueCarriesOver(w, w', j, s);
    forall i | 0 <= i < s.next && WasDue(s, i) ensures FirstInLine(w', s, i) {
      assert FirstInLine(w, s, i);
    }
    forall a, b | 0 <= a < b < |s.order| && WasDue(s, a) ensures WaitsFor(w', s, a, b) {
      assert WaitsFor(w, s, a, b);
      if s.order[b] == j {
        HeadIsLast(w.queue, j, s.order[a]);
      }
    }
  }

  lemma HeadIsLast(q: seq<Id>, j: Id, u: Id)
    requires j !in q
    ensures !Before([j] + q, u, j)
  {
  }

  lemma TailKeepsOrder(q: seq<Id>, j: Id, u: Id, v: Id)
    requires Before([j] + q, u, v) && u != j
    ensures Before(q, u, v)
  {
    var a, b :| 0 <= a < b < |[j] + q| && ([j] + q)[a] == u && ([j] + q)[b] == v;
    assert q[a - 1] == u && q[b - 1] == v;
  }

  /** The attempt of `j` ends with record `r`; the worker lets go of the line. */
  lemma OrderedEnd(w: World, j: Id, r: Record, p: Worker, k: nat)
    requires Inv(w) && w.worker == Handling(j) && j in w.jobs
    requires r.attempts == w.jobs[j].attempts && r.state != Running && !p.Holding? && !p.Handling?
    requires k < |w.submitters| && SubmitterOrdered(w, w.submitters[k])
    ensures SubmitterOrdered(w.(jobs := w.jobs[j := r], worker := p), w.submitters[k])
  {
    hide Conserved;
    var w', s := w.(jobs := w.jobs[j := r], worker := p), w.submitters[k];
    assert RecordOk(w.jobs[j], true);
    assert FirstDone(w', j);
    assert Line(w) == [j] + w.queue && Line(w') == w.queue;
    WorkerJobNotInHand(w, k);
    DueCarriesOver(w, w', j, s);
    forall i | 0 <= i < s.next && WasDue(s, i) ensures FirstInLine(w', s, i) {
      assert FirstInLine(w, s, i);
    }
    forall a, b | 0 <= a < b < |s.order| && WasDue(s, a) ensures WaitsFor(w', s, a, b) {
      WaitsAfterEnd(w, w', s, j, a, b);
    }
  }

  lemma WaitsAfterEnd(w: World, w': World, s: Submitter, j: Id, a: nat, b: nat)
    requires a < b < |s.order| && WaitsFor(w, s, a, b) && FirstDone(w', j)
    requires Line(w) == [j] + w.queue && Line(w') == w.queue && j in w.jobs && w.jobs[j].attempts >= 1
    requires w'.dropped == w.dropped && w'.pending == w.pending && w'.ticker == w.ticker
    requires forall x :: x in w.jobs && x != j ==> x in w'.jobs && w'.jobs[x] == w.jobs[x]
    ensures WaitsFor(w', s, a, b)
  {
    if s.order[a] != j && Before(Line(w), s.order[a], s.order[b]) {
      TailKeepsOrder(w.queue, j, s.order[a], s.order[b]);
    }
  }

  lemma AllOrderedBegin(w: World, j: Id)
    requires Inv(w) && Ordered(w) && w.worker == Holding(j) && j in w.jobs
    ensures Ordered(AfterBegin(w, j))
  {
    forall k | 0 <= k < |w.submitters| ensures SubmitterOrdered(AfterBegin(w, j), w.submitters[k]) {
      OrderedBegin(w, j, k);
    }
  }

  lemma AllOrderedEnd(w: World, j: Id, r: Record, p: Worker)
    requires Inv(w) && Ordered(w) && w.worker == Handling(j) && j in w.jobs
    requires r.attempts == w.jobs[j].attempts && r.state != Running && !p.Holding? && !p.Handling?
    ensures Ordered(w.(jobs := w.jobs[j := r], worker := p))
  {
    forall k | 0 <= k < |w.submitters|
      ensures SubmitterOrdered(w.(jobs := w.jobs[j := r], worker := p), w.submitters[k]) {
      OrderedEnd(w, j, r, p, k);
    }
  }

  lemma OwnPutWaits(w: World, k: nat, i: nat, m: nat)
    requires Inv(w) && HasCall(w, k, ToQueue) && SubmitterOrdered(w, w.submitters[k])
    requires WasDue(w.submitters[k], i) && i < m < |w.submitters[k].order|
    ensures WaitsFor(AfterPut(w, k), Advance(w.submitters[k], EnqueueOutcome(w.queue, w.closed).Pass?), i, m)
  {
    var s, w' := w.submitters[k], AfterPut(w, k);
    var v := NextOf(s);
    EnqueueGrows(w, v);
    assert Line(w') == Line(Enqueued(w, v));
    assert WaitsFor(w, s, i, m);
    if m == s.next {
      assert HandFresh(w.jobs, s);
      assert FirstInLine(w, s, i);
      if EnqueueOutcome(w.queue, w.closed).Pass? && s.order[i] in Line(w) {
        LastIsAfter(Line(w), s.order[i], v);
      }
    } else if Before(Line(w), s.order[i], s.order[m]) {
      BeforeGrows(Line(w), Line(w'), s.order[i], s.order[m]);
    }
  }

  lemma EnqueueGrows(w: World, j: Id)
    ensures Grows(w, Enqueued(w, j))
    ensures EnqueueOutcome(w.queue, w.closed).Pass? ==> Line(Enqueued(w, j)) == Line(w) + [j]
    ensures EnqueueOutcome(w.queue, w.closed).Fail? ==> j in Enqueued(w, j).dropped
  {
  }

  lemma OrderedTake(w: World)
    requires Ordered(w) && w.worker == Polling
    ensures Ordered(AfterTake(w))
  {
    if |w.queue| > 0 {
      assert w.queue == [w.queue[0]] + w.queue[1..];
    }
    assert Line(AfterTake(w)) == Line(w);
    AllOrderedGrow(w, AfterTake(w));
  }

  lemma OrderedRequeue(w: World, j: Id)
    requires Ordered(w) && w.worker.Rescheduling?
    ensures Ordered(Enqueued(w, j).(worker := Top))
  {
    EnqueueGrows(w, j);
    var w' := Enqueued(w, j).(worker := Top);
    assert Line(w') == Line(Enqueued(w, j));
    AllOrderedGrow(w, w');
  }

  lemma OrderedOk(w: World, j: Id, result: string, at: Time)
    requires Inv(w) && Ordered(w) && w.worker == Handling(j) && j in w.jobs
    ensures Ordered(AfterOk(w, j, result, at))
  {
    AllOrderedEnd(w, j, Succeed(w.jobs[j].(result := result), at), Top);
  }

  lemma OrderedError(w: World, j: Id, result: string, error: string, at: Time)
    requires Inv(w) && Ordered(w) && w.worker == Handling(j) && j in w.jobs
    ensures Ordered(AfterError(w, j, result, error, at))
  {
    var r := FailAttempt(w.jobs[j].(result := result), error, at, w.now);
    AllOrderedEnd(w, j, r, AfterError(w, j, result, error, at).worker);
  }

  /** The worker changes phase without touching a job or the line. */
  lemma OrderedIdle(w: World, w': World)
    requires Ordered(w) && w'.jobs == w.jobs && w'.submitters == w.submitters && w'.queue == w.queue
    requires w'.dropped == w.dropped && w'.now == w.now && w.pending <= w'.pending && w'.ticker == w.ticker
    requires !w.worker.Holding? && !w.worker.Handling? && !w'.worker.Holding? && !w'.worker.Handling?
    ensures Ordered(w')
  {
    AllOrderedGrow(w, w');
  }

  lemma OrderedWork(w: World, st: WorkerStep)
    requires Inv(w) && Ordered(w) && WorkerEnabled(w, st)
    ensures Ordered(DoWork(w, st))
  {
    match st
    case TakeNext => OrderedTake(w);
    case BeginAttempt => AllOrderedBegin(w, w.worker.job);
    case AttemptOk(result, at) => OrderedOk(w, w.worker.job, result, at);
    case AttemptError(result, error, at) => OrderedError(w, w.worker.job, result, error, at);
    case WorkerPut => OrderedRequeue(w, w.worker.job);
    case _ => OrderedIdle(w, DoWork(w, st));
  }

  lemma PartitionGrows(w: World)
    requires w.ticker == Idle
    ensures Grows(w, AfterPartition(w))
  {
    forall j | Held(w, j) ensures Held(AfterPartition(w), j) {
      PartitionCounts(w.pending, DueIds(w), j);
      assert multiset(w.pending)[j] > 0;
    }
  }

  /** A delayed job joins the line: the jobs before it that were due are in the
      line already, or have had their first attempt. */
  lemma FlushedWaits(w: World, j: Id, rest: seq<Id>, m: nat, i: nat, k: nat)
    requires Inv(w) && w.ticker == Flushing([j] + rest)
    requires m < |w.submitters| && SubmitterOrdered(w, w.submitters[m])
    requires i < k < |w.submitters[m].order| && WasDue(w.submitters[m], i)
    ensures WaitsFor(Enqueued(w, j).(ticker := Flushing(rest)), w.submitters[m], i, k)
  {
    var w', s := Enqueued(w, j).(ticker := Flushing(rest)), w.submitters[m];
    EnqueueGrows(w, j);
    assert Line(w') == Line(Enqueued(w, j));
    assert WaitsFor(w, s, i, k);
    if s.order[k] == j && !FirstDone(w, s.order[i]) && Unstarted(w, j) {
      FlushedNotInHand(w, j, m, k);
      assert FirstInLine(w, s, i);
      if EnqueueOutcome(w.queue, w.closed).Pass? {
        LastIsAfter(Line(w), s.order[i], j);
      }
    } else {
      assert Held(w, s.order[k]) && s.order[k] != j ==> Held(w', s.order[k]);
      if Before(Line(w), s.order[i], s.order[k]) {
        BeforeGrows(Line(w), Line(w'), s.order[i], s.order[k]);
      }
    }
  }

  lemma FlushedNotInHand(w: World, j: Id, m: nat, k: nat)
    requires Conserved(w) && j in Batch(w.ticker)
    requires m < |w.submitters| && k < |w.submitters[m].order| && w.submitters[m].order[k] == j
    ensures k < w.submitters[m].next
  {
    if k >= w.submitters[m].next {
      HandNotElsewhere(w, m, k);
      OnlyPlace(w, j);
    }
  }

  lemma OrderedFlush(w: World, j: Id, rest: seq<Id>)
    requires Inv(w) && Ordered(w) && w.ticker == Flushing([j] + rest)
    ensures Ordered(Enqueued(w, j).(ticker := Flushing(rest)))
  {
    var w' := Enqueued(w, j).(ticker := Flushing(rest));
    EnqueueGrows(w, j);
    assert Line(w') == Line(Enqueued(w, j));
    forall m | 0 <= m < |w.submitters| ensures SubmitterOrdered(w', w.submitters[m]) {
      var s := w.submitters[m];
      assert SubmitterOrdered(w, s);
      forall i | 0 <= i < s.next && WasDue(s, i) ensures FirstInLine(w', s, i) {
        assert FirstInLine(w, s, i);
      }
      forall i, k | 0 <= i < k < |s.order| && WasDue(s, i) ensures WaitsFor(w', s, i, k) {
        FlushedWaits(w, j, rest, m, i, k);
      }
    }
  }

  lemma OrderedTicker(w: World, st: TickerStep)
    requires Inv(w) && Ordered(w) && TickerEnabled(w, st)
    ensures Ordered(DoTicker(w, st))
  {
    match st
    case Partition =>
      PartitionGrows(w);
      AllOrderedGrow(w, AfterPartition(w));
    case FlushNext =>
      assert w.ticker.batch == [w.ticker.batch[0]] + w.ticker.batch[1..];
      OrderedFlush(w, w.ticker.batch[0], w.ticker.batch[1..]);
    case _ => AllOrderedGrow(w, DoTicker(w, st));
  }

  lemma OrderedControl(w: World, st: ControlStep)
    requires Ordered(w) && ControlEnabled(w, st)
    ensures Ordered(DoControl(w, st))
  {
    assert Line(DoControl(w, st)) == Line(w);
    AllOrderedGrow(w, DoControl(w, st));
  }

  lemma NewSubmitterOrdered(w: World, records: seq<Record>)
    requires FreshRecords(w.jobs, records)
    ensures SubmitterOrdered(AfterRegister(w, records), NewSubmitter(w, records))
  {
    var w', s := AfterRegister(w, records), NewSubmitter(w, records);
    RegisteredTable(w.jobs, records);
    forall i | 0 <= i < |records|
      ensures s.order[i] in w'.jobs && w'.jobs[s.order[i]] == records[i] && Unstarted(w', s.order[i]) {
      assert s.order[i] == records[i].id;
    }
  }

  lemma OrderedRegister(w: World, records: seq<Record>)
    requires Ordered(w) && FreshRecords(w.jobs, records)
    ensures Ordered(AfterRegister(w, records))
  {
    var w' := AfterRegister(w, records);
    RegisteredTable(w.jobs, records);
    assert Grows(w, w');
    forall k | 0 <= k < |w'.submitters| ensures SubmitterOrdered(w', w'.submitters[k]) {
      if k < |w.submitters| {
        assert w'.submitters[k] == w.submitters[k];
        OrderedGrows(w, w', w.submitters[k]);
      } else {
        NewSubmitterOrdered(w, records);
      }
    }
  }

  lemma OwnPutInLine(w: World, k: nat, i: nat)
    requires HasCall(w, k, ToQueue) && Unstarted(w, NextOf(w.submitters[k])) && i <= w.submitters[k].next
    requires i < w.submitters[k].next ==> FirstInLine(w, w.submitters[k], i)
    ensures FirstInLine(AfterPut(w, k), Advance(w.submitters[k], EnqueueOutcome(w.queue, w.closed).Pass?), i)
  {
    var s, w' := w.submitters[k], AfterPut(w, k);
    EnqueueGrows(w, NextOf(s));
    assert Line(w') == Line(Enqueued(w, NextOf(s)));
  }

  /** A submitter hands its next job to the queue. */
  lemma OwnPutOrdered(w: World, k: nat)
    requires Inv(w) && HasCall(w, k, ToQueue) && SubmitterOrdered(w, w.submitters[k])
    ensures SubmitterOrdered(AfterPut(w, k), Advance(w.submitters[k], EnqueueOutcome(w.queue, w.closed).Pass?))
  {
    var s := w.submitters[k];
    var w', s' := AfterPut(w, k), Advance(s, EnqueueOutcome(w.queue, w.closed).Pass?);
    assert HandFresh(w.jobs, s);
    forall i | 0 <= i < s'.next && WasDue(s', i) ensures FirstInLine(w', s', i) {
      assert WasDue(s, i);
      OwnPutInLine(w, k, i);
    }
    forall i, m | 0 <= i < m < |s.order| && WasDue(s', i) ensures WaitsFor(w', s', i, m) {
      assert WasDue(s, i);
      OwnPutWaits(w, k, i, m);
    }
  }

  lemma LastIsAfter(s: seq<Id>, u: Id, v: Id)
    requires u in s
    ensures Before(s + [v], u, v)
  {
    var a :| 0 <= a < |s| && s[a] == u;
    assert (s + [v])[a] == u && (s + [v])[|s|] == v;
  }

  lemma OrderedPut(w: World, k: nat)
    requires Inv(w) && Ordered(w) && HasCall(w, k, ToQueue)
    ensures Ordered(AfterPut(w, k))
  {
    hide SubmitterOrdered, Inv;
    var w' := AfterPut(w, k);
    EnqueueGrows(w, NextOf(w.submitters[k]));
    assert Line(w') == Line(Enqueued(w, NextOf(w.submitters[k])));
    forall m | 0 <= m < |w'.submitters| ensures SubmitterOrdered(w', w'.submitters[m]) {
      if m == k {
        OwnPutOrdered(w, k);
      } else {
        OrderedGrows(w, w', w.submitters[m]);
      }
    }
  }

  lemma OrderedDecide(w: World, k: nat)
    requires Ordered(w) && HasCall(w, k, Undecided)
    ensures Ordered(AfterDecide(w, k))
  {
    var w', s := AfterDecide(w, k), w.submitters[k];
    assert Grows(w, w');
    forall m | 0 <= m < |w'.submitters| ensures SubmitterOrdered(w', w'.submitters[m]) {
      OrderedGrows(w, w', w.submitters[m]);
      if m == k {
        var s' := w'.submitters[k];
        assert SubmitterOrdered(w', s);
        forall i | 0 <= i < s'.next && WasDue(s', i) ensures FirstInLine(w', s', i) {
          assert WasDue(s, i) && FirstInLine(w', s, i);
        }
        forall i, b | 0 <= i < b < |s.order| && WasDue(s', i) ensures WaitsFor(w', s', i, b) {
          assert WasDue(s, i) && WaitsFor(w', s, i, b);
        }
      }
    }
  }

  /** A submitter's next job is delayed. */
  lemma OwnHoldOrdered(w: World, k: nat)
    requires Inv(w) && HasCall(w, k, ToPending) && SubmitterOrdered(w, w.submitters[k])
    ensures SubmitterOrdered(AfterHold(w, k), Advance(w.submitters[k], true))
  {
    var s := w.submitters[k];
    var w', s' := AfterHold(w, k), Advance(s, true);
    assert Grows(w, w');
    assert HandFresh(w.jobs, s);
    assert NextOf(s) in w'.pending;
    assert forall i :: WasDue(s', i) <==> WasDue(s, i);
    forall i | 0 <= i < s'.next && WasDue(s', i) ensures FirstInLine(w', s', i) {
      assert i != s.next && FirstInLine(w, s, i);
    }
    forall i, m | 0 <= i < m < |s.order| && WasDue(s', i) ensures WaitsFor(w', s', i, m) {
      assert WaitsFor(w, s, i, m);
      if m != s.next {
        WaitGrows(w, w', s, i, m);
      }
    }
  }

  lemma OrderedHold(w: World, k: nat)
    requires Inv(w) && Ordered(w) && HasCall(w, k, ToPending)
    ensures Ordered(AfterHold(w, k))
  {
    hide Conserved, SubmitterOrdered, Inv;
    var w' := AfterHold(w, k);
    assert Grows(w, w');
    forall m | 0 <= m < |w'.submitters| ensures SubmitterOrdered(w', w'.submitters[m]) {
      if m == k {
        OwnHoldOrdered(w, k);
      } else {
        OrderedGrows(w, w', w.submitters[m]);
      }
    }
  }

  lemma OrderedStep(w: World, st: Step)
    requires Inv(w) && Ordered(w) && Enabled(w, st)
    ensures Ordered(Do(w, st))
  {
    match st
    case Submits(Register(records)) => OrderedRegister(w, records);
    case Submits(Decide(k)) => OrderedDecide(w, k);
    case Submits(Put(k)) => OrderedPut(w, k);
    case Submits(Hold(k)) => OrderedHold(w, k);
    case Works(p) => OrderedWork(w, p);
    case Ticks(f) => OrderedTicker(w, f);
    case Controls(c) => OrderedControl(w, c);
  }

  lemma {:induction false} OrderedHolds(ws: seq<World>, steps: seq<Step>, n: nat)
    requires IsRun(ws, steps) && n < |ws|
    ensures Ordered(ws[n])
  {
    hide Do, Enabled, Inv;
    if n > 0 {
      OrderedHolds(ws, steps, n - 1);
      InvHolds(ws, steps, n - 1);
      OrderedStep(ws[n - 1], steps[n - 1]);
    }
  }
}
