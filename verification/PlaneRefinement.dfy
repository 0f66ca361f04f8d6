/** The step system can do what the methods of the plane and the scheduler do:
    uninterrupted steps lead exactly to the states their contracts describe. */
module PlaneRefinement {
  import opened Collections
  import opened Graphs
  import opened Jobs
  import opened Results
  import opened Queues
  import opened Schedulers
  import opened Planes
  import opened PlaneSteps
  import opened PlaneConservation

  ghost predicate Leads(w: World, w': World) {
    exists ws, steps :: IsPath(ws, steps) && ws[0] == w && ws[|steps|] == w'
  }

  lemma LeadsToItself(w: World)
    ensures Leads(w, w)
  {
    assert IsPath([w], []);
  }

  lemma LeadsOn(w: World, v: World, st: Step)
    requires Leads(w, v) && Enabled(v, st)
    ensures Leads(w, Do(v, st))
  {
    hide Do, Enabled;
    var ws, steps :| IsPath(ws, steps) && ws[0] == w && ws[|steps|] == v;
    PathExtends(ws, steps, st);
    assert IsPath(ws + [Do(v, st)], steps + [st]);
  }

  lemma LeadsThrough(a: World, b: World, c: World)
    requires Leads(a, b) && Leads(b, c)
    ensures Leads(a, c)
  {
    var ws, steps :| IsPath(ws, steps) && ws[0] == b && ws[|steps|] == c;
    LeadsAlong(a, ws, steps, |steps|);
  }

  lemma {:induction false} LeadsAlong(a: World, ws: seq<World>, steps: seq<Step>, n: nat)
    requires IsPath(ws, steps) && Leads(a, ws[0]) && n <= |steps|
    ensures Leads(a, ws[n])
  {
    hide Do, Enabled;
    if n > 0 {
      LeadsAlong(a, ws, steps, n - 1);
      assert Enabled(ws[n - 1], steps[n - 1]) && ws[n] == Do(ws[n - 1], steps[n - 1]);
      LeadsOn(a, ws[n - 1], steps[n - 1]);
    }
  }

  /** What a reachable state leads to is reachable. */
  lemma {:induction false} LeadsReachable(w: World, w': World)
    requires Reachable(w) && Leads(w, w')
    ensures Reachable(w')
  {
    var ws, steps :| IsPath(ws, steps) && ws[0] == w && ws[|steps|] == w';
    PathReachable(ws, steps, |steps|);
  }

  lemma {:induction false} PathReachable(ws: seq<World>, steps: seq<Step>, n: nat)
    requires IsPath(ws, steps) && Reachable(ws[0]) && n <= |steps|
    ensures Reachable(ws[n])
  {
    hide Do, Enabled;
    if n > 0 {
      PathReachable(ws, steps, n - 1);
      assert Enabled(ws[n - 1], steps[n - 1]) && ws[n] == Do(ws[n - 1], steps[n - 1]);
      StepReachable(ws[n - 1], steps[n - 1]);
    }
  }

  function LinesOf(w: World): Lines<Id> {
    Lines(w.queue, w.pending)
  }

  // ---- The scheduler's flush ----

  /** The jobs of a batch that the queue refuses. */
  function Refused(contents: seq<Id>, closed: bool, batch: seq<Id>): set<Id> {
    if batch == [] then {}
    else
      var init := batch[..|batch| - 1];
      Refused(contents, closed, init)
      + (if EnqueueOutcome(EnqueueAll(contents, closed, init), closed).Fail? then {batch[|batch| - 1]} else {})
  }

  /** What `Scheduler.Flush` promises. */
  function AfterFlush(w: World): World {
    var ready := Select(w.pending, DueIds(w));
    w.(pending := Reject(w.pending, DueIds(w)),
       queue := EnqueueAll(w.queue, w.closed, ready),
       dropped := w.dropped + Refused(w.queue, w.closed, ready))
  }

  function MidFlush(w: World, n: nat): World
    requires n <= |Select(w.pending, DueIds(w))|
  {
    var ready := Select(w.pending, DueIds(w));
    w.(pending := Reject(w.pending, DueIds(w)),
       queue := EnqueueAll(w.queue, w.closed, ready[..n]),
       dropped := w.dropped + Refused(w.queue, w.closed, ready[..n]),
       ticker := Flushing(ready[n..]))
  }

  lemma FlushOneMore(w: World, n: nat)
    requires n < |Select(w.pending, DueIds(w))|
    ensures Enabled(MidFlush(w, n), Ticks(FlushNext))
    ensures Do(MidFlush(w, n), Ticks(FlushNext)) == MidFlush(w, n + 1)
  {
    var ready := Select(w.pending, DueIds(w));
    assert ready[..n + 1][..n] == ready[..n];
    assert ready[n..][0] == ready[n] && ready[n..][1..] == ready[n + 1..];
    assert Do(MidFlush(w, n), Ticks(FlushNext)).dropped == MidFlush(w, n + 1).dropped;
  }

  lemma {:induction false} LeadsToMidFlush(w: World, n: nat)
    requires w.ticker == Idle && n <= |Select(w.pending, DueIds(w))|
    ensures Leads(w, MidFlush(w, n))
  {
    if n == 0 {
      LeadsToItself(w);
      LeadsOn(w, w, Ticks(Partition));
      var ready := Select(w.pending, DueIds(w));
      assert ready[..0] == [] && ready[0..] == ready;
      assert Do(w, Ticks(Partition)) == MidFlush(w, 0);
    } else {
      LeadsToMidFlush(w, n - 1);
      FlushOneMore(w, n - 1);
      LeadsOn(w, MidFlush(w, n - 1), Ticks(FlushNext));
    }
  }

  /** An uninterrupted flush does what the scheduler's method promises. */
  lemma FlushIsSimulated(w: World)
    requires w.ticker == Idle
    ensures Leads(w, AfterFlush(w))
  {
    var ready := Select(w.pending, DueIds(w));
    LeadsToMidFlush(w, |ready|);
    assert ready[..|ready|] == ready && ready[|ready|..] == [];
    LeadsOn(w, MidFlush(w, |ready|), Ticks(FlushDone));
    assert Do(MidFlush(w, |ready|), Ticks(FlushDone)) == AfterFlush(w);
  }

  function JobIds(jobs: seq<Job>): (ids: seq<Id>)
    ensures |ids| == |jobs| && forall i :: 0 <= i < |jobs| ==> ids[i] == jobs[i].id
  {
    seq(|jobs|, i requires 0 <= i < |jobs| => jobs[i].id)
  }

  lemma {:induction false} SplitAlike(jobs: seq<Job>, due: set<Job>, dueIds: set<Id>)
    requires forall j :: j in jobs ==> (j in due <==> j.id in dueIds)
    ensures JobIds(Select<Job>(jobs, due)) == Select(JobIds(jobs), dueIds)
    ensures JobIds(Reject<Job>(jobs, due)) == Reject(JobIds(jobs), dueIds)
  {
    if jobs != [] {
      SplitAlike(jobs[..|jobs| - 1], due, dueIds);
      assert JobIds(jobs)[..|jobs| - 1] == JobIds(jobs[..|jobs| - 1]);
    }
  }

  lemma {:induction false} EnqueueAlike(contents: seq<Job>, closed: bool, batch: seq<Job>)
    ensures JobIds(EnqueueAll<Job>(contents, closed, batch)) == EnqueueAll(JobIds(contents), closed, JobIds(batch))
  {
    if batch != [] {
      EnqueueAlike(contents, closed, batch[..|batch| - 1]);
      assert JobIds(batch)[..|batch| - 1] == JobIds(batch[..|batch| - 1]);
    }
  }

  /** The world holds the scheduler's lines, and the records of its waiting jobs. */
  ghost predicate Mirrors(w: World, s: Scheduler)
    reads s, s.queue, s.pending
  {
    && w.pending == JobIds(s.pending) && w.queue == JobIds(s.queue.contents) && w.closed == s.queue.closed
    && forall j :: j in s.pending ==> j.id in w.jobs && w.jobs[j.id] == j.Value()
  }

  /** The scheduler's flush delivers the jobs that the step system's delivers. */
  lemma FlushRefines(s: Scheduler, w: World)
    requires Mirrors(w, s)
    ensures var due: set<Job> := s.DueJobs(w.now);
      && (forall j :: j in s.pending ==> (j in due <==> j.id in DueIds(w)))
      && AfterFlush(w).pending == JobIds(Reject<Job>(s.pending, due))
      && AfterFlush(w).queue == JobIds(EnqueueAll<Job>(s.queue.contents, s.queue.closed, Select<Job>(s.pending, due)))
  {
    var due: set<Job> := s.DueJobs(w.now);
    forall j | j in s.pending ensures j in due <==> j.id in DueIds(w) {
      assert j.id in w.jobs && w.jobs[j.id].runAfter == j.runAfter;
      var i :| 0 <= i < |s.pending| && s.pending[i] == j;
      assert w.pending[i] == j.id;
    }
    SplitAlike(s.pending, due, DueIds(w));
    EnqueueAlike(s.queue.contents, s.queue.closed, Select<Job>(s.pending, due));
  }

  // ---- One call of Schedule by a submitter ----

  /** The two lines after `Scheduler.Schedule`; a refusal is recorded. */
  function AfterScheduling(w: World, j: Id): World
    requires j in w.jobs
  {
    var due := Due(w.jobs[j], w.now);
    var lines := AfterSchedule(LinesOf(w), w.closed, j, due);
    w.(queue := lines.contents, pending := lines.pending,
       dropped := if ScheduleOutcome(LinesOf(w), w.closed, due).Fail? then w.dropped + {j} else w.dropped)
  }

  function Scheduled(w: World, k: nat): World
    requires HasCall(w, k, Undecided)
  {
    var s, j := w.submitters[k], NextOf(w.submitters[k]);
    var ok := ScheduleOutcome(LinesOf(w), w.closed, Due(w.jobs[j], w.now)).Pass?;
    SetSubmitter(AfterScheduling(w, j), k, Advance(s, ok))
  }

  lemma PutSchedules(w: World, k: nat)
    requires HasCall(w, k, Undecided) && Due(w.jobs[NextOf(w.submitters[k])], w.now)
    ensures HasCall(AfterDecide(w, k), k, ToQueue) && AfterPut(AfterDecide(w, k), k) == Scheduled(w, k)
  {
    assert AfterPut(AfterDecide(w, k), k).submitters == Scheduled(w, k).submitters;
  }

  lemma HoldSchedules(w: World, k: nat)
    requires HasCall(w, k, Undecided) && !Due(w.jobs[NextOf(w.submitters[k])], w.now)
    ensures HasCall(AfterDecide(w, k), k, ToPending) && AfterHold(AfterDecide(w, k), k) == Scheduled(w, k)
  {
    assert AfterHold(AfterDecide(w, k), k).submitters == Scheduled(w, k).submitters;
  }

  lemma SubmitLeads(w: World, v: World, st: SubmitStep)
    requires Leads(w, v) && SubmitEnabled(v, st)
    ensures Leads(w, DoSubmit(v, st))
  {
    LeadsOn(w, v, Submits(st));
  }

  /** The submitter goes on exactly when the call succeeds. */
  lemma ScheduleIsSimulated(w: World, k: nat)
    requires HasCall(w, k, Undecided)
    ensures Leads(w, Scheduled(w, k))
  {
    hide Leads, Scheduled, AfterPut, AfterHold, AfterDecide;
    LeadsToItself(w);
    SubmitLeads(w, w, Decide(k));
    if Due(w.jobs[NextOf(w.submitters[k])], w.now) {
      PutSchedules(w, k);
      SubmitLeads(w, AfterDecide(w, k), SubmitStep.Put(k));
    } else {
      HoldSchedules(w, k);
      SubmitLeads(w, AfterDecide(w, k), Hold(k));
    }
  }

  // ---- One turn of the worker ----

  lemma LeadsToBegun(w: World, j: Id, beginAt: Time)
    requires w.worker == Top && !w.cancelled && |w.queue| > 0 && j == w.queue[0] && j in w.jobs && w.now <= beginAt
    ensures Leads(w, AfterBegin(w.(now := beginAt, queue := w.queue[1..]), j))
  {
    LeadsToItself(w);
    LeadsOn(w, w, Works(CheckContext));
    var v := w.(worker := Polling);
    LeadsOn(w, v, Works(TakeNext));
    v := w.(queue := w.queue[1..], worker := Holding(j));
    LeadsOn(w, v, Controls(Tick(beginAt)));
    LeadsOn(w, v.(now := beginAt), Works(BeginAttempt));
  }

  lemma LeadsToAttempted(w: World, j: Id, v: World, result: string, failure: Option<string>,
                         endAt: Time, retryFrom: Time)
    requires Leads(w, v) && v.worker == Handling(j) && j in v.jobs && v.now <= retryFrom
    ensures var handled := v.jobs[j].(result := result);
      var r := if failure.None? then Succeed(handled, endAt) else FailAttempt(handled, failure.value, endAt, retryFrom);
      Leads(w, v.(now := retryFrom, jobs := v.jobs[j := r],
                  worker := if r.state == Retrying then Rescheduling(j, Undecided) else Top))
  {
    LeadsOn(w, v, Controls(Tick(retryFrom)));
    var u := v.(now := retryFrom);
    if failure.None? {
      LeadsOn(w, u, Works(AttemptOk(result, endAt)));
    } else {
      LeadsOn(w, u, Works(AttemptError(result, failure.value, endAt)));
    }
  }

  lemma LeadsToRescheduled(w: World, j: Id, v: World, scheduleAt: Time)
    requires Leads(w, v) && v.worker == Rescheduling(j, Undecided) && j in v.jobs && v.now <= scheduleAt
    ensures Leads(w, AfterScheduling(v.(now := scheduleAt), j).(worker := Top))
  {
    LeadsOn(w, v, Controls(Tick(scheduleAt)));
    var u := v.(now := scheduleAt);
    LeadsOn(w, u, Works(WorkerDecide));
    var t := u.(worker := Rescheduling(j, Decision(u, j)));
    if Due(u.jobs[j], u.now) {
      LeadsOn(w, t, Works(WorkerPut));
    } else {
      LeadsOn(w, t, Works(WorkerHold));
    }
  }

  /** What `Plane.ProcessNext` promises, with the clock, the first start and a
      refused retry recorded. */
  function AfterWorkerTurn(w: World, result: string, failure: Option<string>,
                           beginAt: Time, endAt: Time, retryFrom: Time, scheduleAt: Time): World
    requires |w.queue| > 0 && w.queue[0] in w.jobs
  {
    var j, before := w.queue[0], Lines(w.queue[1..], w.pending);
    var r := AfterAttempt(w.jobs[j], beginAt, result, failure, endAt, retryFrom);
    var lines := AfterTurn(before, w.closed, j, r, scheduleAt);
    var refused := r.state == Retrying && ScheduleOutcome(before, w.closed, Due(r, scheduleAt)).Fail?;
    w.(now := if r.state == Retrying then scheduleAt else retryFrom,
       jobs := w.jobs[j := r],
       queue := lines.contents, pending := lines.pending,
       dropped := if refused then w.dropped + {j} else w.dropped,
       firstStart := if j in w.firstStart then w.firstStart else w.firstStart[j := beginAt])
  }

  lemma LeadsToTurned(w: World, j: Id, v: World, result: string, failure: Option<string>,
                      endAt: Time, retryFrom: Time, scheduleAt: Time)
    requires Leads(w, v) && v.worker == Handling(j) && j in v.jobs && v.now <= retryFrom <= scheduleAt
    ensures var handled := v.jobs[j].(result := result);
      var r := if failure.None? then Succeed(handled, endAt) else FailAttempt(handled, failure.value, endAt, retryFrom);
      var v' := v.(now := retryFrom, jobs := v.jobs[j := r]);
      Leads(w, (if r.state == Retrying then AfterScheduling(v'.(now := scheduleAt), j) else v').(worker := Top))
  {
    LeadsToAttempted(w, j, v, result, failure, endAt, retryFrom);
    var handled := v.jobs[j].(result := result);
    var r := if failure.None? then Succeed(handled, endAt) else FailAttempt(handled, failure.value, endAt, retryFrom);
    if r.state == Retrying {
      var u := v.(now := retryFrom, jobs := v.jobs[j := r], worker := Rescheduling(j, Undecided));
      LeadsToRescheduled(w, j, u, scheduleAt);
      assert AfterScheduling(u.(now := scheduleAt), j).(worker := Top)
          == AfterScheduling(v.(now := scheduleAt, jobs := v.jobs[j := r]), j).(worker := Top);
    }
  }

  /** An uninterrupted turn of the worker does exactly what the plane's method
      promises. */
  lemma TurnIsSimulated(w: World, result: string, failure: Option<string>,
                        beginAt: Time, endAt: Time, retryFrom: Time, scheduleAt: Time)
    requires w.worker == Top && !w.cancelled && |w.queue| > 0 && w.queue[0] in w.jobs
    requires w.now <= beginAt <= retryFrom <= scheduleAt
    ensures Leads(w, AfterWorkerTurn(w, result, failure, beginAt, endAt, retryFrom, scheduleAt))
  {
    var j := w.queue[0];
    var v := AfterBegin(w.(now := beginAt, queue := w.queue[1..]), j);
    LeadsToBegun(w, j, beginAt);
    LeadsToTurned(w, j, v, result, failure, endAt, retryFrom, scheduleAt);
    var r := AfterAttempt(w.jobs[j], beginAt, result, failure, endAt, retryFrom);
    assert v.jobs[j := r] == w.jobs[j := r];
  }

  // ---- The guards on the job table never block ----

  /** Everything that waits or is held is registered. */
  lemma HeldIsRegistered(w: World, x: Id)
    requires Conserved(w)
    ensures x in w.queue || x in w.pending || x in Batch(w.ticker) || x in InWorker(w.worker) ==> x in w.jobs
    ensures forall k :: 0 <= k < |w.submitters| && x in InHand(w.submitters[k]) ==> x in w.jobs
  {
    assert Places(w, x) == OneIf(x in w.jobs);
    forall k | 0 <= k < |w.submitters| && x in InHand(w.submitters[k]) ensures x in w.jobs {
      HandsInclude(w.submitters, k, x);
    }
  }
}
