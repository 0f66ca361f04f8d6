/** A measure that every step moving a job decreases, so that work on a job is
    bounded whatever the interleaving. */
module PlaneProgress {
  import opened Collections
  import opened Graphs
  import opened Jobs
  import opened Schedulers
  import opened PlaneSteps
  import opened PlaneConservation
  import opened PlaneLifecycle

  /** Some submitter has read the clock for `j` and will enqueue or delay it. */
  ghost predicate HandDecided(w: World, j: Id) {
    exists k :: 0 <= k < |w.submitters| && DecidedFor(w.submitters[k], j)
  }

  predicate DecidedFor(s: Submitter, j: Id) {
    s.next < |s.order| && !s.failed && s.call != Undecided && s.order[s.next] == j
  }

  function WorkerRank(p: Worker): nat {
    if p.Handling? then 8
    else if p.Holding? then 2
    else if p.Rescheduling? && p.call != Undecided then 6
    else 7
  }

  predicate Gone(w: World, j: Id) {
    IsTerminal(w, j) || j in w.dropped
  }

  /** How far `j` is from the end of its current attempt. */
  ghost function Rank(w: World, j: Id): nat {
    if Gone(w, j) then 0
    else if j in InWorker(w.worker) then WorkerRank(w.worker)
    else if j in w.queue then 3
    else if j in Batch(w.ticker) then 4
    else if j in w.pending then 5
    else if HandDecided(w, j) then 6
    else 7
  }

  function Left(r: Record): nat {
    if r.attempts < MaxInt(1, r.maxAttempts) then MaxInt(1, r.maxAttempts) - r.attempts else 0
  }

  ghost function Weight(w: World, j: Id): nat
    requires j in w.jobs
  {
    9 * Left(w.jobs[j]) + Rank(w, j)
  }

  ghost function MovedBySubmit(w: World, st: SubmitStep): set<Id>
    requires SubmitEnabled(w, st)
  {
    if st.Register? then {} else {NextOf(w.submitters[st.k])}
  }

  function MovedByWork(w: World, st: WorkerStep): set<Id> {
    if st == TakeNext then (if |w.queue| > 0 then {w.queue[0]} else {})
    else if InWorker(w.worker) != [] then {InWorker(w.worker)[0]}
    else {}
  }

  ghost function MovedByTicker(w: World, st: TickerStep): set<Id>
    requires TickerEnabled(w, st)
  {
    match st
    case Partition => set x | x in Select(w.pending, DueIds(w))
    case FlushNext => {w.ticker.batch[0]}
    case _ => {}
  }

  /** The jobs that a step moves from one place to the next. */
  ghost function Moved(w: World, st: Step): set<Id>
    requires Enabled(w, st)
  {
    match st
    case Submits(s) => MovedBySubmit(w, s)
    case Works(p) => MovedByWork(w, p)
    case Ticks(f) => MovedByTicker(w, f)
    case Controls(_) => {}
  }

  /** Every place a rank looks at is the same for `x`. */
  lemma SameRank(w: World, w': World, x: Id)
    requires IsTerminal(w', x) <==> IsTerminal(w, x)
    requires x in w'.dropped <==> x in w.dropped
    requires x in w'.queue <==> x in w.queue
    requires x in w'.pending <==> x in w.pending
    requires x in Batch(w'.ticker) <==> x in Batch(w.ticker)
    requires w'.worker == w.worker || (x !in InWorker(w.worker) && x !in InWorker(w'.worker))
    requires HandDecided(w', x) <==> HandDecided(w, x)
    ensures Rank(w', x) == Rank(w, x)
  {
  }

  // ---- Submitters ----

  /** Emptying the i-th hand leaves the k-th. */
  lemma HandsIncludeTwo(subs: seq<Submitter>, i: nat, k: nat, x: Id)
    requires i < |subs| && k < |subs| && i != k && x in InHand(subs[i]) && x in InHand(subs[k])
    ensures HandsOf(subs)[x] >= 2
  {
    var emptied := subs[i].(next := |subs[i].order|);
    assert InHand(emptied) == [];
    HandsUpdate(subs, i, emptied, x);
    HandsInclude(subs[i := emptied], k, x);
  }

  lemma OneHolder(w: World, i: nat, k: nat)
    requires Conserved(w) && i < |w.submitters| && k < |w.submitters| && i != k
    requires w.submitters[i].next < |w.submitters[i].order| && w.submitters[k].next < |w.submitters[k].order|
    ensures NextOf(w.submitters[i]) != NextOf(w.submitters[k])
  {
    var x := NextOf(w.submitters[k]);
    assert InHand(w.submitters[k])[0] == x;
    if NextOf(w.submitters[i]) == x {
      assert InHand(w.submitters[i])[0] == x;
      HandsIncludeTwo(w.submitters, i, k, x);
      OnlyPlace(w, x);
    }
  }

  lemma InHandOnly(w: World, k: nat)
    requires Conserved(w) && k < |w.submitters| && w.submitters[k].next < |w.submitters[k].order|
    ensures var j := NextOf(w.submitters[k]);
      && j in w.jobs && !IsTerminal(w, j) && j !in w.dropped && j !in InWorker(w.worker)
      && j !in w.queue && j !in Batch(w.ticker) && j !in w.pending
  {
    HandContains(w, k, NextOf(w.submitters[k]));
    OnlyPlace(w, NextOf(w.submitters[k]));
  }

  lemma HandDecidedElsewhere(w: World, k: nat, s: Submitter, x: Id)
    requires k < |w.submitters| && (DecidedFor(w.submitters[k], x) <==> DecidedFor(s, x))
    ensures HandDecided(SetSubmitter(w, k, s), x) <==> HandDecided(w, x)
  {
    var w' := SetSubmitter(w, k, s);
    if HandDecided(w, x) {
      var i :| 0 <= i < |w.submitters| && DecidedFor(w.submitters[i], x);
      assert DecidedFor(w'.submitters[i], x);
    }
    if HandDecided(w', x) {
      var i :| 0 <= i < |w'.submitters| && DecidedFor(w'.submitters[i], x);
      assert DecidedFor(w.submitters[i], x);
    }
  }

  lemma UndecidedJob(w: World, k: nat)
    requires Conserved(w) && HasCall(w, k, Undecided)
    ensures !HandDecided(w, NextOf(w.submitters[k]))
  {
    if HandDecided(w, NextOf(w.submitters[k])) {
      var i :| 0 <= i < |w.submitters| && DecidedFor(w.submitters[i], NextOf(w.submitters[k]));
      OneHolder(w, i, k);
    }
  }

  lemma DecideMoves(w: World, k: nat, x: Id)
    requires Conserved(w) && HasCall(w, k, Undecided) && x in w.jobs
    ensures var w' := AfterDecide(w, k);
      if x == NextOf(w.submitters[k]) then Rank(w', x) < Rank(w, x) else Rank(w', x) == Rank(w, x)
  {
    var s, w' := w.submitters[k], AfterDecide(w, k);
    if x == NextOf(s) {
      InHandOnly(w, k);
      UndecidedJob(w, k);
      assert DecidedFor(w'.submitters[k], x);
    } else {
      HandDecidedElsewhere(w, k, w'.submitters[k], x);
      SameRank(w, w', x);
    }
  }

  lemma DecidedRank(w: World, k: nat)
    requires Conserved(w) && k < |w.submitters| && w.submitters[k].next < |w.submitters[k].order|
    requires !w.submitters[k].failed && w.submitters[k].call != Undecided
    ensures Rank(w, NextOf(w.submitters[k])) == 6
  {
    InHandOnly(w, k);
    assert DecidedFor(w.submitters[k], NextOf(w.submitters[k]));
  }

  lemma PutMoves(w: World, k: nat, x: Id)
    requires Conserved(w) && HasCall(w, k, ToQueue) && x in w.jobs
    ensures var w' := AfterPut(w, k);
      if x == NextOf(w.submitters[k]) then Rank(w', x) < Rank(w, x) else Rank(w', x) == Rank(w, x)
  {
    var s, w' := w.submitters[k], AfterPut(w, k);
    if x == NextOf(s) {
      DecidedRank(w, k);
      InHandOnly(w, k);
    } else {
      HandDecidedElsewhere(Enqueued(w, NextOf(s)), k, w'.submitters[k], x);
      SameRank(w, w', x);
    }
  }

  lemma HoldMoves(w: World, k: nat, x: Id)
    requires Conserved(w) && HasCall(w, k, ToPending) && x in w.jobs
    ensures var w' := AfterHold(w, k);
      if x == NextOf(w.submitters[k]) then Rank(w', x) < Rank(w, x) else Rank(w', x) == Rank(w, x)
  {
    var s, w' := w.submitters[k], AfterHold(w, k);
    if x == NextOf(s) {
      DecidedRank(w, k);
      InHandOnly(w, k);
    } else {
      HandDecidedElsewhere(w, k, w'.submitters[k], x);
      SameRank(w, w', x);
    }
  }

  lemma RegisterMovesNothing(w: World, records: seq<Record>, x: Id)
    requires FreshRecords(w.jobs, records) && x in w.jobs
    ensures var w' := AfterRegister(w, records);
      x in w'.jobs && w'.jobs[x] == w.jobs[x] && Rank(w', x) == Rank(w, x)
  {
    var w' := AfterRegister(w, records);
    RegisteredTable(w.jobs, records);
    if HandDecided(w, x) {
      var i :| 0 <= i < |w.submitters| && DecidedFor(w.submitters[i], x);
      assert DecidedFor(w'.submitters[i], x);
    }
    if HandDecided(w', x) {
      var i :| 0 <= i < |w'.submitters| && DecidedFor(w'.submitters[i], x);
      assert i < |w.submitters| && DecidedFor(w.submitters[i], x);
    }
  }

  lemma SubmitMoves(w: World, st: SubmitStep, x: Id)
    requires Conserved(w) && SubmitEnabled(w, st) && x in w.jobs
    ensures var w' := DoSubmit(w, st);
      && x in w'.jobs && w'.jobs[x] == w.jobs[x]
      && if x in MovedBySubmit(w, st) then Rank(w', x) < Rank(w, x) else Rank(w', x) == Rank(w, x)
  {
    match st
    case Register(records) => RegisterMovesNothing(w, records, x);
    case Decide(k) => DecideMoves(w, k, x);
    case Put(k) => PutMoves(w, k, x);
    case Hold(k) => HoldMoves(w, k, x);
  }

  // ---- The two goroutines ----

  lemma TakeMoves(w: World, x: Id)
    requires Conserved(w) && w.worker == Polling && x in w.jobs
    ensures var w' := AfterTake(w);
      if |w.queue| > 0 && x == w.queue[0] then Rank(w', x) < Rank(w, x) else Rank(w', x) == Rank(w, x)
  {
    if |w.queue| == 0 {
      SameRank(w, w.(worker := Waiting), x);
    }
  }

  lemma BeginMoves(w: World, j: Id, x: Id)
    requires Inv(w) && w.worker == Holding(j) && j in w.jobs && x in w.jobs
    ensures var w' := AfterBegin(w, j);
      if x == j then Weight(w', x) < Weight(w, x) else Weight(w', x) == Weight(w, x)
  {
    if x == j {
      WorkerJobLive(w);
      assert RecordOk(w.jobs[j], false);
    } else {
      SameRank(w, AfterBegin(w, j), x);
    }
  }

  lemma EndMoves(w: World, j: Id, r: Record, p: Worker, x: Id)
    requires Inv(w) && w.worker == Handling(j) && j in w.jobs && x in w.jobs
    requires r.attempts == w.jobs[j].attempts && r.maxAttempts == w.jobs[j].maxAttempts
    requires p == if Terminal(r.state) then Top else Rescheduling(j, Undecided)
    ensures var w' := w.(jobs := w.jobs[j := r], worker := p);
      if x == j then Weight(w', x) < Weight(w, x) else Weight(w', x) == Weight(w, x)
  {
    var w' := w.(jobs := w.jobs[j := r], worker := p);
    WorkerJobLive(w);
    if x != j {
      SameRank(w, w', x);
    } else {
      assert Rank(w, j) == 8;
      assert Rank(w', j) <= 7 by {
        assert Terminal(r.state) ==> Gone(w', j);
        assert !Terminal(r.state) ==> j in InWorker(p);
      }
    }
  }

  lemma ErrorMoves(w: World, j: Id, result: string, error: string, at: Time, x: Id)
    requires Inv(w) && w.worker == Handling(j) && j in w.jobs && x in w.jobs
    ensures var w' := AfterError(w, j, result, error, at);
      if x == j then Weight(w', x) < Weight(w, x) else Weight(w', x) == Weight(w, x)
  {
    var w' := AfterError(w, j, result, error, at);
    EndMoves(w, j, FailAttempt(w.jobs[j].(result := result), error, at, w.now), w'.worker, x);
  }

  lemma OkMoves(w: World, j: Id, result: string, at: Time, x: Id)
    requires Inv(w) && w.worker == Handling(j) && j in w.jobs && x in w.jobs
    ensures var w' := AfterOk(w, j, result, at);
      if x == j then Weight(w', x) < Weight(w, x) else Weight(w', x) == Weight(w, x)
  {
    EndMoves(w, j, Succeed(w.jobs[j].(result := result), at), Top, x);
  }

  lemma WorkerDecideMoves(w: World, j: Id, x: Id)
    requires Conserved(w) && w.worker == Rescheduling(j, Undecided) && j in w.jobs && x in w.jobs
    ensures var w' := w.(worker := Rescheduling(j, Decision(w, j)));
      if x == j then Rank(w', x) < Rank(w, x) else Rank(w', x) == Rank(w, x)
  {
    WorkerJobLive(w);
    var w' := w.(worker := Rescheduling(j, Decision(w, j)));
    if x != j {
      SameRank(w, w', x);
    } else if HandDecided(w, j) {
      var k :| 0 <= k < |w.submitters| && DecidedFor(w.submitters[k], j);
      HandContains(w, k, j);
    }
  }

  lemma RequeueMoves(w: World, j: Id, x: Id)
    requires Conserved(w) && w.worker == Rescheduling(j, ToQueue) && x in w.jobs
    ensures var w' := Enqueued(w, j).(worker := Top);
      if x == j then Rank(w', x) < Rank(w, x) else Rank(w', x) == Rank(w, x)
  {
    var w' := Enqueued(w, j).(worker := Top);
    WorkerJobLive(w);
    if x != j {
      SameRank(w, w', x);
    }
  }

  lemma AttemptMoves(w: World, st: WorkerStep, x: Id)
    requires Inv(w) && WorkerEnabled(w, st) && x in w.jobs
    requires st.BeginAttempt? || st.AttemptOk? || st.AttemptError?
    ensures var w' := DoWork(w, st);
      && x in w'.jobs
      && if x == w.worker.job then Weight(w', x) < Weight(w, x) else Weight(w', x) == Weight(w, x)
  {
    match st
    case BeginAttempt => BeginMoves(w, w.worker.job, x);
    case AttemptOk(result, at) => OkMoves(w, w.worker.job, result, at, x);
    case AttemptError(result, error, at) => ErrorMoves(w, w.worker.job, result, error, at, x);
  }

  lemma PassMoves(w: World, st: WorkerStep, x: Id)
    requires Conserved(w) && WorkerEnabled(w, st) && x in w.jobs
    requires st.TakeNext? || st.WorkerDecide? || st.WorkerPut? || st.WorkerHold?
    ensures var w' := DoWork(w, st);
      && w'.jobs == w.jobs
      && if x in MovedByWork(w, st) then Rank(w', x) < Rank(w, x) else Rank(w', x) == Rank(w, x)
  {
    match st
    case TakeNext => TakeMoves(w, x);
    case WorkerDecide => WorkerDecideMoves(w, w.worker.job, x);
    case WorkerPut => RequeueMoves(w, w.worker.job, x);
    case WorkerHold =>
  }

  lemma WorkMoves(w: World, st: WorkerStep, x: Id)
    requires Inv(w) && WorkerEnabled(w, st) && x in w.jobs
    ensures var w' := DoWork(w, st);
      && x in w'.jobs
      && if x in MovedByWork(w, st) then Weight(w', x) < Weight(w, x) else Weight(w', x) == Weight(w, x)
  {
    hide Conserved;
    if st.BeginAttempt? || st.AttemptOk? || st.AttemptError? {
      AttemptMoves(w, st, x);
    } else if !st.CheckContext? && !st.Wake? && !st.Quit? {
      PassMoves(w, st, x);
    }
  }

  lemma PartitionMembers(s: seq<Id>, chosen: set<Id>, x: Id)
    ensures x in Select(s, chosen) <==> x in s && x in chosen
    ensures x in Reject(s, chosen) <==> x in s && x !in chosen
  {
    PartitionCounts(s, chosen, x);
  }

  lemma PartitionMoves(w: World, x: Id)
    requires Conserved(w) && w.ticker == Idle && x in w.jobs
    ensures var w' := AfterPartition(w);
      if x in Select(w.pending, DueIds(w)) then Rank(w', x) < Rank(w, x) else Rank(w', x) == Rank(w, x)
  {
    var w' := AfterPartition(w);
    PartitionMembers(w.pending, DueIds(w), x);
    if x !in Select(w.pending, DueIds(w)) {
      SameRank(w, w', x);
    }
  }

  lemma FlushMoves(w: World, j: Id, rest: seq<Id>, x: Id)
    requires Conserved(w) && w.ticker == Flushing([j] + rest) && x in w.jobs
    ensures var w' := Enqueued(w, j).(ticker := Flushing(rest));
      if x == j then Rank(w', x) < Rank(w, x) else Rank(w', x) == Rank(w, x)
  {
    var w' := Enqueued(w, j).(ticker := Flushing(rest));
    if x == j {
      assert j in Batch(w.ticker);
      OnlyPlace(w, j);
    } else {
      SameRank(w, w', x);
    }
  }

  lemma TickerMoves(w: World, st: TickerStep, x: Id)
    requires Conserved(w) && TickerEnabled(w, st) && x in w.jobs
    ensures var w' := DoTicker(w, st);
      && w'.jobs == w.jobs
      && if x in MovedByTicker(w, st) then Rank(w', x) < Rank(w, x) else Rank(w', x) == Rank(w, x)
  {
    hide Conserved;
    match st
    case Partition => PartitionMoves(w, x);
    case FlushNext =>
      var b := w.ticker.batch;
      assert b == [b[0]] + b[1..];
      FlushMoves(w, b[0], b[1..], x);
    case _ => SameRank(w, DoTicker(w, st), x);
  }

  lemma ControlMovesNothing(w: World, st: ControlStep, x: Id)
    requires ControlEnabled(w, st) && x in w.jobs
    ensures DoControl(w, st).jobs == w.jobs && Rank(DoControl(w, st), x) == Rank(w, x)
  {
    SameRank(w, DoControl(w, st), x);
  }

  /** Every step takes the jobs it moves strictly down and leaves the weight of
      all other jobs alone. */
  lemma MovingDecreasesWeight(w: World, st: Step, x: Id)
    requires Inv(w) && Enabled(w, st) && x in w.jobs
    ensures x in Do(w, st).jobs
    ensures x in Moved(w, st) ==> Weight(Do(w, st), x) < Weight(w, x)
    ensures x !in Moved(w, st) ==> Weight(Do(w, st), x) == Weight(w, x)
  {
    match st
    case Submits(s) => SubmitMoves(w, s, x);
    case Works(p) => WorkMoves(w, p, x);
    case Ticks(f) => TickerMoves(w, f, x);
    case Controls(c) => ControlMovesNothing(w, c, x);
  }

  function Total(a: seq<nat>, from: nat, n: nat): nat
    requires from <= n <= |a|
    decreases n
  {
    if n == from then 0 else Total(a, from, n - 1) + a[n - 1]
  }

  lemma {:induction false} DescentIsBounded(moves: seq<nat>, weights: seq<nat>, from: nat, n: nat)
    requires from <= n <= |moves| && |weights| == |moves| + 1
    requires forall i {:trigger weights[i]} :: from <= i < n ==> moves[i] + weights[i + 1] <= weights[i]
    ensures Total(moves, from, n) + weights[n] <= weights[from]
    decreases n
  {
    if n > from {
      DescentIsBounded(moves, weights, from, n - 1);
      assert moves[n - 1] + weights[n - 1 + 1] <= weights[n - 1];
    }
  }

  /** For each step, 1 if it moves `x`. */
  ghost function MoveFlags(ws: seq<World>, steps: seq<Step>, x: Id): seq<nat>
    requires IsRun(ws, steps)
  {
    seq(|steps|, i requires 0 <= i < |steps| && Enabled(ws[i], steps[i]) => OneIf(x in Moved(ws[i], steps[i])))
  }

  /** How many of the steps `from..n` move `x`. */
  ghost function MovesOf(ws: seq<World>, steps: seq<Step>, x: Id, from: nat, n: nat): nat
    requires IsRun(ws, steps) && from <= n <= |steps|
  {
    Total(MoveFlags(ws, steps, x), from, n)
  }

  ghost function WeightTrace(ws: seq<World>, x: Id): seq<nat> {
    seq(|ws|, i requires 0 <= i < |ws| => if x in ws[i].jobs then Weight(ws[i], x) else 0)
  }

  lemma InitialWeight(ws: seq<World>, steps: seq<Step>, x: Id, n: nat)
    requires IsRun(ws, steps) && n <= |steps| && x in ws[n].jobs
    ensures Weight(ws[n], x) <= 9 * MaxInt(1, ws[n].jobs[x].maxAttempts) + 8
  {
    hide Do, Enabled;
    InvHolds(ws, steps, n);
    assert RecordOk(ws[n].jobs[x], ws[n].worker == Handling(x));
  }

  lemma MoveCounted(ws: seq<World>, steps: seq<Step>, x: Id, n: nat)
    requires IsRun(ws, steps) && n < |steps| && x in ws[n].jobs
    ensures x in ws[n + 1].jobs
    ensures OneIf(x in Moved(ws[n], steps[n])) + Weight(ws[n + 1], x) <= Weight(ws[n], x)
  {
    hide Do, Enabled, Inv, Moved, Weight;
    InvHolds(ws, steps, n);
    MovingDecreasesWeight(ws[n], steps[n], x);
  }

  lemma {:induction false} JobStays(ws: seq<World>, steps: seq<Step>, x: Id, from: nat, n: nat)
    requires IsRun(ws, steps) && from <= n <= |steps| && x in ws[from].jobs
    ensures x in ws[n].jobs
    decreases n
  {
    hide Do, Enabled;
    if n > from {
      JobStays(ws, steps, x, from, n - 1);
      MoveCounted(ws, steps, x, n - 1);
    }
  }

  /** Work on a job is bounded: from any point of any run, it is moved at most
      its weight many times, at most 9·max(1, MaxAttempts) + 8. */
  lemma WorkIsBounded(ws: seq<World>, steps: seq<Step>, x: Id, from: nat, n: nat)
    requires IsRun(ws, steps) && from <= n <= |steps| && x in ws[from].jobs
    ensures x in ws[n].jobs
    ensures MovesOf(ws, steps, x, from, n) + Weight(ws[n], x) <= Weight(ws[from], x)
    ensures Weight(ws[from], x) <= 9 * MaxInt(1, ws[from].jobs[x].maxAttempts) + 8
  {
    var moves, weights := MoveFlags(ws, steps, x), WeightTrace(ws, x);
    forall i {:trigger weights[i]} | from <= i < n ensures moves[i] + weights[i + 1] <= weights[i] {
      JobStays(ws, steps, x, from, i);
      MoveCounted(ws, steps, x, i);
    }
    DescentIsBounded(moves, weights, from, n);
    JobStays(ws, steps, x, from, n);
    InitialWeight(ws, steps, x, from);
  }
}
