/** Which jobs of a submission the scheduler has accepted, in terms of where the
    jobs are: if scheduling stops midway, what was accepted is closed under
    dependencies. */
module PlaneAcceptance {
  import opened Collections
  import opened Graphs
  import opened Queues
  import opened PlaneSteps
  import opened PlaneConservation
  import opened PlaneLifecycle
  import opened PlaneGuarantees
  import opened PlaneOrder
  import opened PlaneDependencies

  // ---- What has left a submitter's hand is in nobody's hand ----

  ghost predicate HasLeft(w: World, s: Submitter) {
    && s.next <= |s.order|
    && (forall i :: 0 <= i < s.next ==> s.order[i] in w.jobs && s.order[i] !in HandsOf(w.submitters))
  }

  /** A submitter that failed did so on the last job it offered. */
  ghost predicate FailedOnLast(w: World, s: Submitter) {
    s.failed ==> 0 < s.next <= |s.order| && s.order[s.next - 1] in w.dropped && Unstarted(w, s.order[s.next - 1])
  }

  ghost predicate Settled(w: World) {
    forall m :: 0 <= m < |w.submitters| ==> HasLeft(w, w.submitters[m]) && FailedOnLast(w, w.submitters[m])
  }

  /** Nothing enters a hand except jobs that are being registered. */
  lemma HandsOnlyShrink(w: World, st: Step, x: Id)
    requires Enabled(w, st) && x in w.jobs && x !in HandsOf(w.submitters)
    ensures x !in HandsOf(Do(w, st).submitters)
  {
    if st.Submits? {
      SubmittersKeepOut(w, st.s, x);
    } else {
      SubmittersWait(w, st);
    }
  }

  lemma AdvanceKeepsOut(subs: seq<Submitter>, k: nat, ok: bool, x: Id)
    requires k < |subs| && subs[k].next < |subs[k].order| && x !in HandsOf(subs)
    ensures x !in HandsOf(subs[k := Advance(subs[k], ok)])
  {
    HandsAdvance(subs, k, ok, x);
  }

  lemma DecideKeepsOut(subs: seq<Submitter>, k: nat, call: Call, x: Id)
    requires k < |subs| && x !in HandsOf(subs)
    ensures x !in HandsOf(subs[k := subs[k].(call := call)])
  {
    HandsUpdate(subs, k, subs[k].(call := call), x);
  }

  lemma SubmittersKeepOut(w: World, st: SubmitStep, x: Id)
    requires SubmitEnabled(w, st) && x in w.jobs && x !in HandsOf(w.submitters)
    ensures x !in HandsOf(DoSubmit(w, st).submitters)
  {
    match st
    case Register(records) =>
    case Decide(k) => DecideKeepsOut(w.submitters, k, Decision(w, NextOf(w.submitters[k])), x);
    case Put(k) => AdvanceKeepsOut(w.submitters, k, EnqueueOutcome(w.queue, w.closed).Pass?, x);
    case Hold(k) => AdvanceKeepsOut(w.submitters, k, true, x);
  }

  lemma KeepsUnstarted(w: World, st: Step, j: Id)
    requires Inv(w) && Enabled(w, st) && j in w.dropped && Unstarted(w, j)
    ensures j in Do(w, st).dropped && Unstarted(Do(w, st), j)
  {
    LostIsUntouched(w, st, j);
    DroppedIffRefused(w, st);
  }

  /** A submitter that takes no step in `st` stays settled. */
  lemma OthersStaySettled(w: World, st: Step, s: Submitter)
    requires Inv(w) && Enabled(w, st) && HasLeft(w, s) && FailedOnLast(w, s)
    ensures HasLeft(Do(w, st), s) && FailedOnLast(Do(w, st), s)
  {
    forall i | 0 <= i < s.next
      ensures s.order[i] in Do(w, st).jobs && s.order[i] !in HandsOf(Do(w, st).submitters)
    {
      HandsOnlyShrink(w, st, s.order[i]);
      LegalStep(w, st, s.order[i]);
    }
    if s.failed {
      KeepsUnstarted(w, st, s.order[s.next - 1]);
    }
  }

  /** The job a submitter hands over leaves its hand, the only one it was in. */
  lemma HandedOverHasLeft(w: World, k: nat, ok: bool)
    requires Conserved(w) && k < |w.submitters| && w.submitters[k].next < |w.submitters[k].order|
    ensures NextOf(w.submitters[k]) in w.jobs
    ensures NextOf(w.submitters[k]) !in HandsOf(w.submitters[k := Advance(w.submitters[k], ok)])
  {
    var j := NextOf(w.submitters[k]);
    HandContains(w, k, j);
    OnlyPlace(w, j);
    HandsAdvance(w.submitters, k, ok, j);
  }

  lemma AdvanceSettled(w: World, w': World, k: nat, ok: bool)
    requires Conserved(w) && k < |w.submitters| && w.submitters[k].next < |w.submitters[k].order|
    requires HasLeft(w, w.submitters[k])
    requires w'.jobs == w.jobs && w'.submitters == w.submitters[k := Advance(w.submitters[k], ok)]
    requires !ok ==> NextOf(w.submitters[k]) in w'.dropped && Unstarted(w', NextOf(w.submitters[k]))
    ensures HasLeft(w', Advance(w.submitters[k], ok)) && FailedOnLast(w', Advance(w.submitters[k], ok))
  {
    hide HandsOf, Conserved;
    HandedOverHasLeft(w, k, ok);
    forall i | 0 <= i < w.submitters[k].next ensures w.submitters[k].order[i] !in HandsOf(w'.submitters) {
      AdvanceKeepsOut(w.submitters, k, ok, w.submitters[k].order[i]);
    }
  }

  lemma OwnPutSettled(w: World, k: nat)
    requires Inv(w) && HasCall(w, k, ToQueue) && HasLeft(w, w.submitters[k])
    ensures var s := Advance(w.submitters[k], EnqueueOutcome(w.queue, w.closed).Pass?);
      HasLeft(AfterPut(w, k), s) && FailedOnLast(AfterPut(w, k), s)
  {
    assert HandFresh(w.jobs, w.submitters[k]);
    AdvanceSettled(w, AfterPut(w, k), k, EnqueueOutcome(w.queue, w.closed).Pass?);
  }

  lemma OwnHoldSettled(w: World, k: nat)
    requires Inv(w) && HasCall(w, k, ToPending) && HasLeft(w, w.submitters[k])
    ensures var s := Advance(w.submitters[k], true);
      HasLeft(AfterHold(w, k), s) && FailedOnLast(AfterHold(w, k), s)
  {
    AdvanceSettled(w, AfterHold(w, k), k, true);
  }

  lemma SettledSubmit(w: World, st: SubmitStep)
    requires Inv(w) && Settled(w) && SubmitEnabled(w, st)
    ensures Settled(DoSubmit(w, st))
  {
    hide HandsOf, Conserved;
    var w' := DoSubmit(w, st);
    assert w' == Do(w, Submits(st));
    forall m | 0 <= m < |w'.submitters| ensures HasLeft(w', w'.submitters[m]) && FailedOnLast(w', w'.submitters[m]) {
      if m < |w.submitters| && w'.submitters[m] == w.submitters[m] {
        OthersStaySettled(w, Submits(st), w.submitters[m]);
      } else {
        match st
        case Register(records) => assert w'.submitters[m] == NewSubmitter(w, records);
        case Decide(k) => OthersStaySettled(w, Submits(st), w.submitters[k]);
        case Put(k) => OwnPutSettled(w, k);
        case Hold(k) => OwnHoldSettled(w, k);
      }
    }
  }

  lemma SettledStep(w: World, st: Step)
    requires Inv(w) && Settled(w) && Enabled(w, st)
    ensures Settled(Do(w, st))
  {
    if st.Submits? {
      SettledSubmit(w, st.s);
    } else {
      SubmittersWait(w, st);
      forall m | 0 <= m < |w.submitters|
        ensures HasLeft(Do(w, st), w.submitters[m]) && FailedOnLast(Do(w, st), w.submitters[m])
      {
        OthersStaySettled(w, st, w.submitters[m]);
      }
    }
  }

  lemma SubmittersWait(w: World, st: Step)
    requires Enabled(w, st) && !st.Submits?
    ensures Do(w, st).submitters == w.submitters
  {
    match st
    case Works(p) => assert Do(w, st) == DoWork(w, p);
    case Ticks(f) => assert Do(w, st) == DoTicker(w, f);
    case Controls(c) => assert Do(w, st) == DoControl(w, c);
  }

  lemma {:induction false} SettledHolds(ws: seq<World>, steps: seq<Step>, n: nat)
    requires IsRun(ws, steps) && n < |ws|
    ensures Settled(ws[n])
  {
    hide Do, Enabled, HandsOf, Conserved, Inv;
    if n > 0 {
      SettledHolds(ws, steps, n - 1);
      InvHolds(ws, steps, n - 1);
      SettledStep(ws[n - 1], steps[n - 1]);
    }
  }

  // ---- Acceptance ----

  /** The scheduler accepted the i-th job: it has left the submitter's hand, and
      was not refused to it. */
  ghost predicate IsAccepted(w: World, s: Submitter, i: nat)
    requires i < |s.order|
  {
    !At(w, s.order[i], WithSubmitter) && !RefusedTo(w, s, s.order[i])
  }

  /** The call ended with an error for this job, which is lost and unstarted. */
  ghost predicate RefusedTo(w: World, s: Submitter, j: Id) {
    s.failed && 0 < s.next <= |s.order| && j == s.order[s.next - 1] && At(w, j, Lost) && Unstarted(w, j)
  }

  lemma ReachableSettled(w: World)
    requires Reachable(w)
    ensures Settled(w)
  {
    var ws, steps :| IsRun(ws, steps) && ws[|steps|] == w;
    SettledHolds(ws, steps, |steps|);
  }

  /** Each job before the next to be offered has left its submitter's hand, to
      some other place. */
  lemma OfferedIsElsewhere(w: World, m: nat, i: nat)
    requires Conserved(w) && m < |w.submitters| && HasLeft(w, w.submitters[m]) && i < w.submitters[m].next
    ensures var j := w.submitters[m].order[i];
      !At(w, j, WithSubmitter) && exists p :: p != WithSubmitter && At(w, j, p)
  {
    ExactlyOnePlace(w, w.submitters[m].order[i]);
    var p :| At(w, w.submitters[m].order[i], p);
    assert p != WithSubmitter;
  }

  /** Where each job of a submission is: not yet offered jobs are with their
      submitter; a call that failed did so on the last job offered; all others
      are somewhere past the submitter. */
  lemma WhereJobsAre(w: World, m: nat, i: nat)
    requires Reachable(w) && m < |w.submitters| && i < |w.submitters[m].order|
    ensures var s := w.submitters[m];
      && (i >= s.next ==> At(w, s.order[i], WithSubmitter))
      && (i < s.next && s.failed && i == s.next - 1 ==> RefusedTo(w, s, s.order[i]))
      && (i < s.next && !(s.failed && i == s.next - 1) ==>
            IsAccepted(w, s, i) && exists p :: p != WithSubmitter && At(w, s.order[i], p))
  {
    ReachableInv(w);
    ReachableSettled(w);
    var s := w.submitters[m];
    assert HasLeft(w, s) && FailedOnLast(w, s);
    if i >= s.next {
      HandNotElsewhere(w, m, i);
    } else {
      OfferedIsElsewhere(w, m, i);
      OrdersAreDistinct(w, m);
    }
  }

  lemma OrdersAreDistinct(w: World, m: nat)
    requires Reachable(w) && m < |w.submitters|
    ensures Distinct(w.submitters[m].order)
  {
    ReachableOrdered(w);
    assert SubmitterOrdered(w, w.submitters[m]);
  }

  /** The accepted jobs are those before the one that was refused, or before the
      next to be offered. */
  lemma AcceptedIff(w: World, m: nat, i: nat)
    requires Reachable(w) && m < |w.submitters| && i < |w.submitters[m].order|
    ensures var s := w.submitters[m];
      IsAccepted(w, s, i) <==> i < s.next && !(s.failed && i == s.next - 1)
  {
    WhereJobsAre(w, m, i);
  }

  /** At every moment, and so also if scheduling has stopped midway: whatever
      the scheduler accepted of a graph, it accepted all its ancestors. */
  lemma AcceptedIsClosedUnderDependencies(w: World, m: nat, g: Graph, u: Id, v: Id) returns (i: nat, k: nat)
    requires Reachable(w) && m < |w.submitters| && IsTopologicalOrder(g, w.submitters[m].order)
    requires v in g.nodes && Reaches(g, u, v) && u != v
    ensures i < k < |w.submitters[m].order| && w.submitters[m].order[i] == u && w.submitters[m].order[k] == v
    ensures IsAccepted(w, w.submitters[m], k) ==> IsAccepted(w, w.submitters[m], i)
  {
    i, k := AncestorIsEarlier(g, w.submitters[m].order, u, v);
    AcceptedIff(w, m, i);
    AcceptedIff(w, m, k);
  }
}
