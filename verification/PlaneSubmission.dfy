/** A whole call of `Submit` or `SubmitDAG` in the step system: registering the
    jobs and scheduling them one by one gives the lines that the plane's methods
    promise, and the submitter stops where they stop. */
module PlaneSubmission {
  import opened Graphs
  import opened Jobs
  import opened Schedulers
  import opened PlaneSteps
  import opened PlaneRefinement

  /** `clock(i)` is the time read while the i-th job is scheduled. */
  ghost predicate ClockRuns(now: Time, clock: nat -> Time, n: nat) {
    && (forall i :: 0 <= i < n ==> now <= clock(i))
    && (forall i, j :: 0 <= i < j < n ==> clock(i) <= clock(j))
  }

  function DueFlags(records: seq<Record>, clock: nat -> Time): (due: seq<bool>)
    ensures |due| == |records|
    ensures forall i :: 0 <= i < |due| ==> due[i] == Due(records[i], clock(i))
  {
    seq(|records|, i requires 0 <= i < |records| => Due(records[i], clock(i)))
  }

  /** The lines after scheduling the first `n` jobs, and how many succeeded. */
  function Handed(w: World, records: seq<Record>, clock: nat -> Time, n: nat): (Lines<Id>, nat)
    requires n <= |records|
  {
    ScheduleAll(LinesOf(w), w.closed, IdsOf(records)[..n], DueFlags(records, clock)[..n])
  }

  /** The state after the first `n` jobs have had their turn; none has after a
      refusal. */
  function AfterSubmit(w: World, records: seq<Record>, clock: nat -> Time, n: nat): World
    requires n <= |records|
  {
    var (lines, k) := Handed(w, records, clock, n);
    var stopped := k < n;
    w.(now := if n == 0 then w.now else if stopped then clock(k) else clock(n - 1),
       jobs := Registered(w.jobs, records),
       queue := lines.contents, pending := lines.pending,
       dropped := if stopped then w.dropped + {records[k].id} else w.dropped,
       submitters := w.submitters
         + [Submitter(IdsOf(records), if stopped then k + 1 else k, Undecided, stopped, records, w.now)])
  }

  lemma HandedOneMore(w: World, records: seq<Record>, clock: nat -> Time, n: nat)
    requires n < |records|
    ensures var (lines, k) := Handed(w, records, clock, n);
      && k <= n
      && Handed(w, records, clock, n + 1)
         == if k == n && ScheduleOutcome(lines, w.closed, Due(records[n], clock(n))).Pass?
            then (AfterSchedule(lines, w.closed, records[n].id, Due(records[n], clock(n))), n + 1) else (lines, k)
  {
    var ids, due := IdsOf(records), DueFlags(records, clock);
    assert ids[..n + 1][..n] == ids[..n] && due[..n + 1][..n] == due[..n];
    ScheduleAllTakesPrefix(LinesOf(w), w.closed, ids[..n], due[..n]);
  }

  lemma ReplaceLast(subs: seq<Submitter>, s: Submitter, s': Submitter)
    ensures (subs + [s])[|subs| := s'] == subs + [s']
  {
  }

  /** The submitter holds the next job, untouched, and has not decided yet. */
  lemma NextCall(w: World, records: seq<Record>, clock: nat -> Time, n: nat)
    requires FreshRecords(w.jobs, records) && n < |records| && Handed(w, records, clock, n).1 == n
    ensures var v, m := AfterSubmit(w, records, clock, n), |w.submitters|;
      && HasCall(v, m, Undecided) && NextOf(v.submitters[m]) == records[n].id && v.jobs[records[n].id] == records[n]
  {
    hide ScheduleAll;
    RegisteredTable(w.jobs, records);
    var v, m := AfterSubmit(w, records, clock, n), |w.submitters|;
    assert v.submitters[m].next == n && v.submitters[m].order == IdsOf(records);
  }

  /** Nothing refused so far: the next job has its turn. */
  lemma TurnOfNext(w: World, records: seq<Record>, clock: nat -> Time, n: nat)
    requires FreshRecords(w.jobs, records) && n < |records| && Handed(w, records, clock, n).1 == n
    ensures var v, m := AfterSubmit(w, records, clock, n).(now := clock(n)), |w.submitters|;
      HasCall(v, m, Undecided) && Scheduled(v, m) == AfterSubmit(w, records, clock, n + 1)
  {
    hide ScheduleAll, Registered, FreshRecords, Handed;
    NextCall(w, records, clock, n);
    var v, m := AfterSubmit(w, records, clock, n).(now := clock(n)), |w.submitters|;
    HandedOneMore(w, records, clock, n);
    assert LinesOf(v) == Handed(w, records, clock, n).0;
    var ok := ScheduleOutcome(LinesOf(v), w.closed, Due(records[n], clock(n))).Pass?;
    ReplaceLast(w.submitters, v.submitters[m], Advance(v.submitters[m], ok));
  }

  lemma LeadsToRegistered(w: World, records: seq<Record>, clock: nat -> Time)
    requires FreshRecords(w.jobs, records)
    ensures Leads(w, AfterSubmit(w, records, clock, 0))
  {
    LeadsToItself(w);
    LeadsOn(w, w, Submits(Register(records)));
    assert IdsOf(records)[..0] == [];
    assert AfterSubmit(w, records, clock, 0) == AfterRegister(w, records);
  }

  lemma {:induction false} LeadsToSubmitted(w: World, records: seq<Record>, clock: nat -> Time, n: nat)
    requires FreshRecords(w.jobs, records) && n <= |records| && ClockRuns(w.now, clock, |records|)
    ensures Leads(w, AfterSubmit(w, records, clock, n))
  {
    hide Leads, FreshRecords, ScheduleAll, Registered;
    if n == 0 {
      LeadsToRegistered(w, records, clock);
    } else {
      LeadsToSubmitted(w, records, clock, n - 1);
      if Handed(w, records, clock, n - 1).1 == n - 1 {
        var v := AfterSubmit(w, records, clock, n - 1);
        LeadsOn(w, v, Controls(Tick(clock(n - 1))));
        TurnOfNext(w, records, clock, n - 1);
        ScheduleIsSimulated(v.(now := clock(n - 1)), |w.submitters|);
        LeadsThrough(w, v.(now := clock(n - 1)), AfterSubmit(w, records, clock, n));
      } else {
        NothingAfterRefusal(w, records, clock, n - 1);
      }
    }
  }

  lemma NothingAfterRefusal(w: World, records: seq<Record>, clock: nat -> Time, n: nat)
    requires n < |records| && Handed(w, records, clock, n).1 != n
    ensures AfterSubmit(w, records, clock, n + 1) == AfterSubmit(w, records, clock, n)
  {
    HandedOneMore(w, records, clock, n);
  }

  /** An uninterrupted call: the lines are those of scheduling the jobs in order
      up to the first refusal, and the submitter has failed exactly when there
      was one, on that job. */
  lemma SubmitIsSimulated(w: World, records: seq<Record>, clock: nat -> Time) returns (w': World, s: Submitter)
    requires FreshRecords(w.jobs, records) && ClockRuns(w.now, clock, |records|)
    ensures Leads(w, w') && w'.submitters == w.submitters + [s] && w'.jobs == Registered(w.jobs, records)
    ensures var (lines, k) := ScheduleAll(LinesOf(w), w.closed, IdsOf(records), DueFlags(records, clock));
      && LinesOf(w') == lines && k <= |records|
      && s.order == IdsOf(records) && (s.failed <==> k < |records|) && s.next == (if s.failed then k + 1 else k)
      && w'.dropped == w.dropped + (if s.failed then {records[k].id} else {})
  {
    LeadsToSubmitted(w, records, clock, |records|);
    w' := AfterSubmit(w, records, clock, |records|);
    s := w'.submitters[|w.submitters|];
    assert IdsOf(records)[..|records|] == IdsOf(records);
    assert DueFlags(records, clock)[..|records|] == DueFlags(records, clock);
    ScheduleAllTakesPrefix(LinesOf(w), w.closed, IdsOf(records), DueFlags(records, clock));
  }
}
