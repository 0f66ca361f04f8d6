/** How attempts end, over whole runs: what the records tell of the failed
    attempts, and what a submission whose attempts succeed may rely on. */
module PlaneOutcomes {
  import opened Graphs
  import opened Jobs
  import opened PlaneSteps
  import opened PlaneConservation
  import opened PlaneLifecycle
  import opened PlaneGuarantees
  import opened PlaneOrder
  import opened PlaneDependencies

  /** In this step an attempt of `u` fails. */
  predicate FailsOn(w: World, st: Step, u: Id) {
    st.Works? && st.p.AttemptError? && w.worker == Handling(u)
  }

  /** One of the first `n` steps was a failed attempt of `u`. */
  ghost predicate FailedBefore(ws: seq<World>, steps: seq<Step>, n: nat, u: Id)
    requires n <= |steps| && |ws| == |steps| + 1
  {
    exists i :: 0 <= i < n && FailsOn(ws[i], steps[i], u)
  }

  /** What the record alone says of earlier failures. */
  predicate HasFailed(r: Record) {
    r.state in {Retrying, Failed} || r.attempts >= 2
  }

  predicate RecordFailed(w: World, u: Id) {
    u in w.jobs && HasFailed(w.jobs[u])
  }

  /** Completed by its first attempt. */
  predicate CompletedAtOnce(w: World, u: Id) {
    u in w.jobs && w.jobs[u].state == Completed && w.jobs[u].attempts == 1
  }

  /** The message of the last failed attempt of `u`, if there was one. */
  ghost function LastMessage(ws: seq<World>, steps: seq<Step>, n: nat, u: Id): string
    requires n <= |steps| && |ws| == |steps| + 1
  {
    if n == 0 then ""
    else if FailsOn(ws[n - 1], steps[n - 1], u) then steps[n - 1].p.error
    else LastMessage(ws, steps, n - 1, u)
  }

  // ---- One step ----

  /** A job that is started again has failed before. */
  lemma BeginShows(w: World, j: Id)
    requires Inv(w) && w.worker == Holding(j) && j in w.jobs
    ensures HasFailed(Begin(w.jobs[j], w.now)) <==> HasFailed(w.jobs[j])
  {
    hide HandsFresh, ShutdownOk;
    WorkerJobLive(w);
    hide Conserved;
    assert RecordOk(w.jobs[j], w.worker == Handling(j));
  }

  lemma FailedAttemptShows(r: Record, error: string, at: Time, now: Time)
    ensures HasFailed(FailAttempt(r, error, at, now)) && FailAttempt(r, error, at, now).error == error
  {
    hide Backoff;
  }

  lemma SuccessShows(w: World, j: Id, result: string, at: Time)
    requires Inv(w) && w.worker == Handling(j) && j in w.jobs
    ensures HasFailed(Succeed(w.jobs[j].(result := result), at)) <==> HasFailed(w.jobs[j])
  {
    hide Conserved, HandsFresh, ShutdownOk;
    assert RecordOk(w.jobs[j], w.worker == Handling(j));
  }

  lemma WorkFailure(w: World, st: WorkerStep, u: Id)
    requires Inv(w) && WorkerEnabled(w, st) && u in w.jobs
    ensures RecordFailed(DoWork(w, st), u) <==> RecordFailed(w, u) || FailsOn(w, Works(st), u)
    ensures DoWork(w, st).jobs[u].error == if FailsOn(w, Works(st), u) then st.error else w.jobs[u].error
  {
    hide Inv, HasFailed, FailAttempt;
    match st
    case BeginAttempt => BeginShows(w, w.worker.job);
    case AttemptOk(result, at) => SuccessShows(w, w.worker.job, result, at);
    case AttemptError(result, error, at) =>
      FailedAttemptShows(w.jobs[w.worker.job].(result := result), error, at, w.now);
    case _ => assert DoWork(w, st).jobs == w.jobs;
  }

  lemma StepFailure(w: World, st: Step, u: Id)
    requires Inv(w) && Enabled(w, st)
    ensures RecordFailed(Do(w, st), u) <==> RecordFailed(w, u) || FailsOn(w, st, u)
    ensures u in w.jobs ==>
      && u in Do(w, st).jobs
      && Do(w, st).jobs[u].error == if FailsOn(w, st, u) then st.p.error else w.jobs[u].error
  {
    hide Inv;
    if u in w.jobs {
      match st
      case Submits(s) => SubmitKeepsRecords(w, s, u);
      case Works(p) => WorkFailure(w, p, u);
      case Ticks(f) => TickerKeepsRecords(w, f);
      case Controls(c) => ControlKeepsRecords(w, c);
    } else {
      NewJobsAreUnstarted(w, st, u);
    }
  }

  // ---- Whole runs ----

  /** A job's record shows a failure exactly when one of its attempts has failed. */
  lemma {:induction false} RecordFailedIff(ws: seq<World>, steps: seq<Step>, n: nat, u: Id)
    requires IsRun(ws, steps) && n <= |steps|
    ensures RecordFailed(ws[n], u) <==> FailedBefore(ws, steps, n, u)
  {
    hide Do, Enabled, Inv, HasFailed, FailsOn;
    if n > 0 {
      RecordFailedIff(ws, steps, n - 1, u);
      InvHolds(ws, steps, n - 1);
      StepFailure(ws[n - 1], steps[n - 1], u);
    }
  }

  /** The error of a job that has failed is the message of its last failed
      attempt, also when a later attempt completed it; until then the error stays
      as it was submitted. */
  lemma {:induction false} ErrorIsLastMessage(ws: seq<World>, steps: seq<Step>, m: nat, n: nat, u: Id)
    requires IsRun(ws, steps) && m <= n <= |steps| && u in ws[m].jobs
    ensures u in ws[n].jobs
    ensures ws[n].jobs[u].error
         == if FailedBefore(ws, steps, n, u) then LastMessage(ws, steps, n, u) else ws[m].jobs[u].error
    decreases n
  {
    hide Do, Enabled, Inv, HasFailed;
    if n == m {
      if FailedBefore(ws, steps, n, u) {
        FailureIsRecorded(ws, steps, n, u);
      }
    } else {
      ErrorIsLastMessage(ws, steps, m, n - 1, u);
      InvHolds(ws, steps, n - 1);
      StepFailure(ws[n - 1], steps[n - 1], u);
    }
  }

  lemma {:induction false} FailureIsRecorded(ws: seq<World>, steps: seq<Step>, n: nat, u: Id)
    requires IsRun(ws, steps) && n <= |steps| && FailedBefore(ws, steps, n, u)
    ensures u in ws[n].jobs && ws[n].jobs[u].error == LastMessage(ws, steps, n, u)
  {
    hide Do, Enabled, Inv, HasFailed;
    RecordFailedIff(ws, steps, n, u);
    RecordFailedIff(ws, steps, n - 1, u);
    InvHolds(ws, steps, n - 1);
    StepFailure(ws[n - 1], steps[n - 1], u);
    if !FailsOn(ws[n - 1], steps[n - 1], u) {
      FailureIsRecorded(ws, steps, n - 1, u);
    } else {
      WorkedOnIsRegistered(ws[n - 1], steps[n - 1], u);
    }
  }

  lemma WorkedOnIsRegistered(w: World, st: Step, u: Id)
    requires Enabled(w, st) && FailsOn(w, st, u)
    ensures u in w.jobs
  {
  }

  // ---- The last attempt ----

  /** In this step an attempt of `u` begins. */
  predicate StartsOn(w: World, st: Step, u: Id) {
    st == Works(BeginAttempt) && w.worker == Holding(u)
  }

  /** In this step an attempt of `u` ends, well or badly. */
  predicate EndsOn(w: World, st: Step, u: Id) {
    st.Works? && (st.p.AttemptOk? || st.p.AttemptError?) && w.worker == Handling(u)
  }

  ghost predicate NoneStarts(ws: seq<World>, steps: seq<Step>, m: nat, n: nat, u: Id)
    requires n <= |steps| && |ws| == |steps| + 1
  {
    forall i :: m <= i < n ==> !StartsOn(ws[i], steps[i], u)
  }

  ghost predicate NoneEnds(ws: seq<World>, steps: seq<Step>, m: nat, n: nat, u: Id)
    requires n <= |steps| && |ws| == |steps| + 1
  {
    forall i :: m <= i < n ==> !EndsOn(ws[i], steps[i], u)
  }

  /** What a job is and what was asked for it. */
  predicate SameJob(a: Record, b: Record) {
    && b.id == a.id && b.jobType == a.jobType && b.payload == a.payload
    && b.createdAt == a.createdAt && b.maxAttempts == a.maxAttempts
  }

  lemma WorkTimes(w: World, st: WorkerStep, u: Id)
    requires WorkerEnabled(w, st) && u in w.jobs
    ensures var r, r' := w.jobs[u], DoWork(w, st).jobs[u];
      && SameJob(r, r')
      && r'.startedAt == (if StartsOn(w, Works(st), u) then w.now else r.startedAt)
      && r'.finishedAt == (if EndsOn(w, Works(st), u) then st.finishedAt else r.finishedAt)
      && r'.result == (if EndsOn(w, Works(st), u) then st.result else r.result)
  {
    hide Backoff;
  }

  /** Each step writes only the times and the result of the attempt it starts or
      ends. */
  lemma StepTimes(w: World, st: Step, u: Id)
    requires Enabled(w, st) && u in w.jobs
    ensures u in Do(w, st).jobs
    ensures var r, r' := w.jobs[u], Do(w, st).jobs[u];
      && SameJob(r, r')
      && r'.startedAt == (if StartsOn(w, st, u) then w.now else r.startedAt)
      && r'.finishedAt == (if EndsOn(w, st, u) then st.p.finishedAt else r.finishedAt)
      && r'.result == (if EndsOn(w, st, u) then st.p.result else r.result)
  {
    match st
    case Submits(s) => SubmitKeepsRecords(w, s, u);
    case Works(p) => WorkTimes(w, p, u);
    case Ticks(f) => TickerKeepsRecords(w, f);
    case Controls(c) => ControlKeepsRecords(w, c);
  }

  lemma {:induction false} UntilNextAttempt(ws: seq<World>, steps: seq<Step>, m: nat, n: nat, u: Id)
    requires IsRun(ws, steps) && m <= n <= |steps| && u in ws[m].jobs
    ensures u in ws[n].jobs && SameJob(ws[m].jobs[u], ws[n].jobs[u])
    ensures NoneStarts(ws, steps, m, n, u) ==> ws[n].jobs[u].startedAt == ws[m].jobs[u].startedAt
    ensures NoneEnds(ws, steps, m, n, u) ==>
      ws[n].jobs[u].finishedAt == ws[m].jobs[u].finishedAt && ws[n].jobs[u].result == ws[m].jobs[u].result
    decreases n
  {
    hide Do, Enabled, StartsOn, EndsOn;
    if m < n {
      UntilNextAttempt(ws, steps, m, n - 1, u);
      StepTimes(ws[n - 1], steps[n - 1], u);
    }
  }

  /** A record tells when its last started attempt began. */
  lemma StartedAtIsLastStart(ws: seq<World>, steps: seq<Step>, i: nat, n: nat, u: Id)
    requires IsRun(ws, steps) && i < n <= |steps|
    requires StartsOn(ws[i], steps[i], u) && NoneStarts(ws, steps, i + 1, n, u)
    ensures u in ws[n].jobs && ws[n].jobs[u].startedAt == ws[i].now
  {
    hide Do;
    assert Enabled(ws[i], steps[i]) && u in ws[i].jobs;
    StepTimes(ws[i], steps[i], u);
    UntilNextAttempt(ws, steps, i + 1, n, u);
  }

  /** And when its last ended attempt ended, well or badly, and with what result. */
  lemma FinishedAtIsLastEnd(ws: seq<World>, steps: seq<Step>, i: nat, n: nat, u: Id)
    requires IsRun(ws, steps) && i < n <= |steps|
    requires EndsOn(ws[i], steps[i], u) && NoneEnds(ws, steps, i + 1, n, u)
    ensures u in ws[n].jobs
    ensures ws[n].jobs[u].finishedAt == steps[i].p.finishedAt && ws[n].jobs[u].result == steps[i].p.result
  {
    hide Do;
    assert Enabled(ws[i], steps[i]) && u in ws[i].jobs;
    StepTimes(ws[i], steps[i], u);
    UntilNextAttempt(ws, steps, i + 1, n, u);
  }

  // ---- Ancestors ----

  /** Once its first attempt has ended, a job is completed by it exactly when no
      attempt of it has failed. */
  lemma CompletedIffNoFailure(ws: seq<World>, steps: seq<Step>, n: nat, u: Id)
    requires IsRun(ws, steps) && n <= |steps| && FirstDone(ws[n], u)
    ensures CompletedAtOnce(ws[n], u) <==> !FailedBefore(ws, steps, n, u)
  {
    hide FailedBefore;
    InvHolds(ws, steps, n);
    assert RecordOk(ws[n].jobs[u], ws[n].worker == Handling(u));
    RecordFailedIff(ws, steps, n, u);
  }

  /** `u` comes before `v` in the graph and was due when it was submitted. */
  ghost predicate DueAncestor(s: Submitter, g: Graph, u: Id, v: Id) {
    && Reaches(g, u, v) && u != v
    && exists i :: 0 <= i < |s.order| && s.order[i] == u && WasDue(s, i)
  }

  /** Once a job has started, each ancestor that was due at submission has been
      completed by its first attempt, exactly when no attempt of it has failed. */
  lemma AncestorCompletedIff(ws: seq<World>, steps: seq<Step>, n: nat, m: nat, g: Graph, u: Id, v: Id)
    requires IsRun(ws, steps) && n <= |steps| && m < |ws[n].submitters|
    requires IsTopologicalOrder(g, ws[n].submitters[m].order) && v in g.nodes
    requires Started(ws[n], v) && DueAncestor(ws[n].submitters[m], g, u, v)
    ensures CompletedAtOnce(ws[n], u) <==> !FailedBefore(ws, steps, n, u)
  {
    PrefixIsRun(ws, steps, n);
    DependenciesFirst(ws[n], m, g, u, v);
    CompletedIffNoFailure(ws, steps, n, u);
  }

  lemma PrefixIsRun(ws: seq<World>, steps: seq<Step>, n: nat)
    requires IsRun(ws, steps) && n <= |steps|
    ensures Reachable(ws[n])
  {
    hide Do, Enabled;
    assert IsRun(ws[..n + 1], steps[..n]);
  }

  /** So if all ancestors were due, they are all completed when the job starts,
      exactly when none of them has failed. */
  lemma AncestorsCompletedIff(ws: seq<World>, steps: seq<Step>, n: nat, m: nat, g: Graph, v: Id)
    requires IsRun(ws, steps) && n <= |steps| && m < |ws[n].submitters|
    requires IsTopologicalOrder(g, ws[n].submitters[m].order) && v in g.nodes && Started(ws[n], v)
    requires forall u :: Reaches(g, u, v) && u != v ==> DueAncestor(ws[n].submitters[m], g, u, v)
    ensures (forall u :: Reaches(g, u, v) && u != v ==> CompletedAtOnce(ws[n], u))
       <==> (forall u :: Reaches(g, u, v) && u != v ==> !FailedBefore(ws, steps, n, u))
  {
    hide Do, Enabled, IsTopologicalOrder, CompletedAtOnce, FailedBefore, Reaches, DueAncestor;
    forall u | Reaches(g, u, v) && u != v
      ensures CompletedAtOnce(ws[n], u) <==> !FailedBefore(ws, steps, n, u)
    {
      AncestorCompletedIff(ws, steps, n, m, g, u, v);
    }
  }

  /** In every run in which these records are registered at this time and no
      attempt of `u` fails, `v` starts only after `u` has completed. */
  ghost predicate CompletesFirst(records: seq<Record>, now: Time, u: Id, v: Id) {
    forall ws: seq<World>, steps: seq<Step>, n: nat, m: nat ::
      IsRun(ws, steps) && n <= |steps| && m < |ws[n].submitters|
      && Submitted(ws[n].submitters[m], records, now) && Started(ws[n], v) && !FailedBefore(ws, steps, n, u) ==>
        CompletedAtOnce(ws[n], u)
  }

  lemma NotFirstDone(w: World, u: Id)
    requires Inv(w) && !FirstDone(w, u)
    ensures !RecordFailed(w, u) && !CompletedAtOnce(w, u)
  {
    if u in w.jobs {
      assert RecordOk(w.jobs[u], w.worker == Handling(u));
    }
  }

  /** Waiting for the first attempt is waiting for completion, failures apart. */
  lemma CompletesFirstIffWaits(records: seq<Record>, now: Time, u: Id, v: Id)
    ensures CompletesFirst(records, now, u, v) <==> AlwaysWaits(records, now, u, v)
  {
    hide Do, Enabled, FailedBefore, FirstDone, CompletedAtOnce, RecordFailed, Inv;
    if AlwaysWaits(records, now, u, v) {
      forall ws: seq<World>, steps: seq<Step>, n: nat, m: nat
        | IsRun(ws, steps) && n <= |steps| && m < |ws[n].submitters|
        && Submitted(ws[n].submitters[m], records, now) && Started(ws[n], v) && !FailedBefore(ws, steps, n, u)
        ensures CompletedAtOnce(ws[n], u)
      {
        PrefixIsRun(ws, steps, n);
        CompletedIffNoFailure(ws, steps, n, u);
      }
    } else {
      var w, m :| Reachable(w) && 0 <= m < |w.submitters| && Submitted(w.submitters[m], records, now)
        && Started(w, v) && !FirstDone(w, u);
      var ws: seq<World>, steps: seq<Step> :| IsRun(ws, steps) && ws[|steps|] == w;
      var n := |steps|;
      InvHolds(ws, steps, n);
      NotFirstDone(w, u);
      RecordFailedIff(ws, steps, n, u);
      assert IsRun(ws, steps) && Submitted(ws[n].submitters[m], records, now) && Started(ws[n], v);
    }
  }

  /** While its attempts succeed, an ancestor is completed before its descendant
      starts, in every run, if and only if it is due when the graph is submitted. */
  lemma CompletesFirstIff(g: Graph, records: seq<Record>, now: Time, i: nat, v: Id)
    requires FreshRecords(map[], records) && IsTopologicalOrder(g, IdsOf(records)) && i < |records|
    requires v in g.nodes && Reaches(g, records[i].id, v) && records[i].id != v
    ensures CompletesFirst(records, now, records[i].id, v) <==> Due(records[i], now)
  {
    hide CompletesFirst, AlwaysWaits;
    DependencyRespectedIff(g, records, now, i, v);
    CompletesFirstIffWaits(records, now, records[i].id, v);
  }
}
