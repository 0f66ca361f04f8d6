/** Which published events a channel is offered, and in which order, however many
    publishes overlap: events count by their position among those published. */
module BusOffers {
  import opened Collections
  import opened BusSteps
  import opened BusDelivery

  /** The event published at `p` is of the channel's type and was published while
      the channel was subscribed. */
  predicate InWindow(published: seq<Event>, ch: Chan, p: nat) {
    && p < |published| && published[p].typ == ch.typ
    && ch.since <= p && (ch.closed ==> p < ch.until)
  }

  predicate InProgress<C>(b: Bus<C>, p: nat) {
    exists k :: 0 <= k < |b.publishers| && b.publishers[k].at == p
  }

  /** A publish in progress has yet to offer the event at `p` to `c`. */
  predicate Pending<C(==)>(b: Bus<C>, c: C, p: nat) {
    exists k :: 0 <= k < |b.publishers| && b.publishers[k].at == p && c in b.publishers[k].rest
  }

  /** Publishes in progress are in the order in which they began. */
  ghost predicate InTurn<C>(b: Bus<C>) {
    && (forall k :: 0 <= k < |b.publishers| ==>
          var p := b.publishers[k];
          p.at < |b.published| && b.published[p.at] == p.event && Distinct(p.rest))
    && (forall j, k :: 0 <= j < k < |b.publishers| ==> b.publishers[j].at < b.publishers[k].at)
    && (b.closed ==> b.publishers == [])
  }

  /** The offers made are distinct events of the window; every event of the window
      has been offered or is still to be offered, and not both. */
  ghost predicate Matched<C>(b: Bus<C>, c: C)
    requires c in b.chans
  {
    var ch := b.chans[c];
    && |ch.offeredAt| == |ch.offered| && Distinct(ch.offeredAt)
    && (forall a :: 0 <= a < |ch.offered| ==>
          InWindow(b.published, ch, ch.offeredAt[a]) && b.published[ch.offeredAt[a]] == ch.offered[a])
    && (forall p :: InWindow(b.published, ch, p) <==> p in ch.offeredAt || Pending(b, c, p))
    && (forall p :: Pending(b, c, p) ==> p !in ch.offeredAt)
    && ch.since <= |b.published| && (ch.closed ==> ch.until <= |b.published|)
  }

  ghost predicate Placed<C(!new)>(b: Bus<C>) {
    && Owned(b) && InTurn(b)
    && (forall c :: c in b.chans ==> Matched(b, c))
  }

  // ---- Preservation ----

  lemma PlacedSubscribe<C(!new)>(b: Bus<C>, t: string, c: C)
    requires Placed(b) && b.publishers == [] && c !in b.chans
    ensures Placed(AfterSubscribe(b, t, c))
  {
    OwnedSubscribe(b, t, c);
    forall x | x in b.chans ensures Matched(AfterSubscribe(b, t, c), x) {
      assert Matched(b, x);
    }
  }

  lemma MatchedClosing<C>(b: Bus<C>, b': Bus<C>, c: C)
    requires c in b.chans && Matched(b, c) && !b.chans[c].closed && b.publishers == []
    requires b'.publishers == [] && b'.published == b.published
    requires c in b'.chans && b'.chans[c] == Closing(b.chans[c], |b.published|)
    ensures Matched(b', c)
  {
    var ch, ch' := b.chans[c], b'.chans[c];
    assert forall p :: InWindow(b.published, ch', p) <==> InWindow(b.published, ch, p);
  }

  lemma PlacedUnsubscribe<C(!new)>(b: Bus<C>, t: string, c: C)
    requires Placed(b) && b.publishers == []
    ensures Placed(AfterUnsubscribe(b, t, c))
  {
    var b' := AfterUnsubscribe(b, t, c);
    OwnedUnsubscribe(b, t, c);
    forall x | x in b'.chans ensures Matched(b', x) {
      assert Matched(b, x);
      if x == c && c in ListOf(b.subs, t) {
        MatchedClosing(b, b', x);
      }
    }
  }

  lemma PlacedClose<C(!new)>(b: Bus<C>)
    requires Placed(b) && b.publishers == []
    ensures Placed(AfterClose(b))
  {
    var b' := AfterClose(b);
    OwnedClose(b);
    forall x | x in b'.chans ensures Matched(b', x) {
      assert Matched(b, x);
      if Listed(b, x) {
        MatchedClosing(b, b', x);
      }
    }
  }

  /** The new event is in the window of the channels its publisher will serve. */
  lemma MatchedPublish<C(!new)>(b: Bus<C>, e: Event, x: C)
    requires Owned(b) && x in b.chans && Matched(b, x)
    ensures Matched(AfterPublishBegin(b, e), x)
  {
    var b', ch, n := AfterPublishBegin(b, e), b.chans[x], |b.published|;
    if !b.closed {
      ListedByType(b, x, e.typ);
      forall p ensures Pending(b', x, p) <==> Pending(b, x, p) || (p == n && x in ListOf(b.subs, e.typ)) {
        PendingAppended(b, e, x, p);
      }
    }
  }

  lemma PendingAppended<C>(b: Bus<C>, e: Event, x: C, p: nat)
    requires !b.closed
    ensures Pending(AfterPublishBegin(b, e), x, p)
       <==> Pending(b, x, p) || (p == |b.published| && x in ListOf(b.subs, e.typ))
  {
    var b', n := AfterPublishBegin(b, e), |b.publishers|;
    assert forall k :: 0 <= k < n ==> b'.publishers[k] == b.publishers[k];
    assert b'.publishers[n].at == |b.published| && b'.publishers[n].rest == ListOf(b.subs, e.typ);
  }

  lemma PlacedPublish<C(!new)>(b: Bus<C>, e: Event)
    requires Placed(b)
    ensures Placed(AfterPublishBegin(b, e))
  {
    OwnedPublish(b, e);
    forall x | x in b.chans ensures Matched(AfterPublishBegin(b, e), x) {
      MatchedPublish(b, e, x);
    }
  }

  /** Serving the head of a publisher's list settles one event for that channel. */
  lemma PendingSent<C(!new)>(b: Bus<C>, k: nat, x: C, p: nat)
    requires Owned(b) && InTurn(b) && k < |b.publishers| && |b.publishers[k].rest| > 0
    ensures Pending(AfterSend(b, k), x, p)
       <==> Pending(b, x, p) && !(x == b.publishers[k].rest[0] && p == b.publishers[k].at)
  {
    var b', pub := AfterSend(b, k), b.publishers[k];
    assert pub.rest == [pub.rest[0]] + pub.rest[1..];
    assert b'.publishers == b.publishers[k := pub.(rest := pub.rest[1..])];
    if Pending(b, x, p) && !(x == pub.rest[0] && p == pub.at) {
      var j :| 0 <= j < |b.publishers| && b.publishers[j].at == p && x in b.publishers[j].rest;
      assert b'.publishers[j].at == p && x in b'.publishers[j].rest;
    }
  }

  lemma MatchedSend<C(!new)>(b: Bus<C>, k: nat, x: C)
    requires Owned(b) && InTurn(b) && k < |b.publishers| && |b.publishers[k].rest| > 0
    requires x in b.chans && Matched(b, x)
    ensures x in AfterSend(b, k).chans && Matched(AfterSend(b, k), x)
  {
    var b', pub := AfterSend(b, k), b.publishers[k];
    var ch := b.chans[x];
    var c := pub.rest[0];
    assert c in pub.rest && c in ListOf(b.subs, pub.event.typ);
    if x == c {
      assert Pending(b, x, pub.at) && InWindow(b.published, ch, pub.at);
    }
    forall p ensures Pending(b', x, p) <==> Pending(b, x, p) && !(x == c && p == pub.at) {
      PendingSent(b, k, x, p);
    }
  }

  lemma PlacedSend<C(!new)>(b: Bus<C>, k: nat)
    requires Placed(b) && k < |b.publishers| && |b.publishers[k].rest| > 0
    ensures Placed(AfterSend(b, k))
  {
    OwnedSend(b, k);
    assert Distinct(b.publishers[k].rest[1..]);
    forall x | x in b.chans ensures Matched(AfterSend(b, k), x) {
      MatchedSend(b, k, x);
    }
  }

  lemma PendingEnded<C>(b: Bus<C>, k: nat, x: C, p: nat)
    requires k < |b.publishers| && b.publishers[k].rest == []
    ensures Pending(AfterPublishEnd(b, k), x, p) <==> Pending(b, x, p)
  {
    var b' := AfterPublishEnd(b, k);
    if Pending(b, x, p) {
      var j :| 0 <= j < |b.publishers| && b.publishers[j].at == p && x in b.publishers[j].rest;
      assert b.publishers[j] == b'.publishers[if j < k then j else j - 1];
    }
    if Pending(b', x, p) {
      var j :| 0 <= j < |b'.publishers| && b'.publishers[j].at == p && x in b'.publishers[j].rest;
      assert b'.publishers[j] == b.publishers[if j < k then j else j + 1];
    }
  }

  lemma PlacedPublishEnd<C(!new)>(b: Bus<C>, k: nat)
    requires Placed(b) && k < |b.publishers| && b.publishers[k].rest == []
    ensures Placed(AfterPublishEnd(b, k))
  {
    var b' := AfterPublishEnd(b, k);
    OwnedPublishEnd(b, k);
    assert forall j :: 0 <= j < |b'.publishers| ==> b'.publishers[j] == b.publishers[if j < k then j else j + 1];
    forall x | x in b'.chans ensures Matched(b', x) {
      assert Matched(b, x);
      forall p ensures Pending(b', x, p) <==> Pending(b, x, p) {
        PendingEnded(b, k, x, p);
      }
    }
  }

  lemma PlacedReceive<C(!new)>(b: Bus<C>, c: C)
    requires Placed(b) && c in b.chans && |b.chans[c].buf| > 0
    ensures Placed(AfterReceive(b, c))
  {
    var b' := AfterReceive(b, c);
    OwnedReceive(b, c);
    forall x | x in b'.chans ensures Matched(b', x) {
      assert Matched(b, x);
      assert forall p :: InWindow(b.published, b'.chans[x], p) <==> InWindow(b.published, b.chans[x], p);
    }
  }

  lemma PlacedStep<C(!new)>(b: Bus<C>, st: Step<C>)
    requires Placed(b) && Enabled(b, st)
    ensures Placed(Do(b, st))
  {
    hide Placed;
    match st
    case Subscribe(t, c) => PlacedSubscribe(b, t, c);
    case Unsubscribe(t, c) => PlacedUnsubscribe(b, t, c);
    case Close => PlacedClose(b);
    case PublishBegin(e) => PlacedPublish(b, e);
    case PublishSend(k) => PlacedSend(b, k);
    case PublishEnd(k) => PlacedPublishEnd(b, k);
    case Receive(c) => PlacedReceive(b, c);
  }

  lemma {:induction false} PlacedHolds<C(!new)>(bs: seq<Bus<C>>, steps: seq<Step<C>>, n: nat)
    requires IsRun(bs, steps) && n < |bs|
    ensures Placed(bs[n])
  {
    hide Do, Enabled;
    if n > 0 {
      PlacedHolds(bs, steps, n - 1);
      PlacedStep(bs[n - 1], steps[n - 1]);
    }
  }

  // ---- What is offered ----

  /** Each event of the window is offered at most once and nothing else is; what
      no publish in progress has yet to offer has been offered. */
  lemma OffersAreTheWindow<C(!new)>(bs: seq<Bus<C>>, steps: seq<Step<C>>, n: nat, c: C)
    requires IsRun(bs, steps) && n < |bs| && c in bs[n].chans
    ensures var b, ch := bs[n], bs[n].chans[c];
      && |ch.offeredAt| == |ch.offered| && Distinct(ch.offeredAt)
      && (forall p :: p in ch.offeredAt <==> InWindow(b.published, ch, p) && !Pending(b, c, p))
      && (forall a :: 0 <= a < |ch.offered| ==>
            ch.offeredAt[a] < |b.published| && b.published[ch.offeredAt[a]] == ch.offered[a])
  {
    PlacedHolds(bs, steps, n);
    assert Matched(bs[n], c);
  }

  // ---- In which order ----

  /** What a later state keeps of a channel's history. */
  predicate Continues(a: Chan, b: Chan) {
    && b.typ == a.typ && b.since == a.since
    && (a.closed ==> b.closed && b.until == a.until)
    && a.offeredAt <= b.offeredAt
  }

  ghost predicate Extends<C(!new)>(a: Bus<C>, b: Bus<C>) {
    && a.published <= b.published
    && (forall c :: c in a.chans ==> c in b.chans && Continues(a.chans[c], b.chans[c]))
    && (forall c :: c in b.chans && c !in a.chans ==> |a.published| <= b.chans[c].since)
    && (forall c :: c in a.chans && c in b.chans && b.chans[c].closed && !a.chans[c].closed ==>
          |a.published| <= b.chans[c].until)
  }

  lemma StepExtends<C(!new)>(b: Bus<C>, st: Step<C>)
    requires Owned(b) && Enabled(b, st)
    ensures Extends(b, Do(b, st))
  {
    match st
    case Subscribe(t, c) =>
    case Unsubscribe(t, c) =>
    case Close =>
      forall c | c in b.chans && b.chans[c].closed ensures !Listed(b, c) {
      }
    case PublishBegin(e) =>
    case PublishSend(k) =>
    case PublishEnd(k) =>
    case Receive(c) =>
  }

  lemma {:induction false} LaterExtends<C(!new)>(bs: seq<Bus<C>>, steps: seq<Step<C>>, m: nat, n: nat)
    requires IsRun(bs, steps) && m <= n < |bs|
    ensures Extends(bs[m], bs[n])
    decreases n
  {
    hide Do, Enabled;
    if m < n {
      LaterExtends(bs, steps, m, n - 1);
      OwnedHolds(bs, steps, n - 1);
      StepExtends(bs[n - 1], steps[n - 1]);
    }
  }

  /** Wherever `q` is in `s`, `p` is before it. */
  ghost predicate Precedes(s: seq<nat>, p: nat, q: nat) {
    forall b :: 0 <= b < |s| && s[b] == q ==> exists a :: 0 <= a < b && s[a] == p
  }

  /** Whatever was published from some state on is offered to a channel after
      everything that nobody had yet to offer it then. */
  lemma OfferedFirst<C(!new)>(bs: seq<Bus<C>>, steps: seq<Step<C>>, m: nat, n: nat, c: C, p: nat, q: nat)
    requires IsRun(bs, steps) && m <= n < |bs| && c in bs[n].chans
    requires InWindow(bs[n].published, bs[n].chans[c], p) && p < |bs[m].published| <= q
    requires !Pending(bs[m], c, p)
    ensures Precedes(bs[n].chans[c].offeredAt, p, q)
  {
    var ch := bs[n].chans[c];
    PlacedHolds(bs, steps, m);
    LaterExtends(bs, steps, m, n);
    assert c in bs[m].chans;
    var was := bs[m].chans[c];
    assert Matched(bs[m], c) && Continues(was, ch);
    assert InWindow(bs[m].published, was, p);
    var a :| 0 <= a < |was.offeredAt| && was.offeredAt[a] == p;
    assert ch.offeredAt[a] == p;
  }

  /** If the publish at `p` had ended when the one at `q` began, every channel
      they were both meant for was offered `p` first, whatever other publishes
      overlapped with either. */
  lemma EndedIsOfferedFirst<C(!new)>(bs: seq<Bus<C>>, steps: seq<Step<C>>, m: nat, n: nat, c: C, p: nat)
    requires IsRun(bs, steps) && m < n < |bs| && steps[m].PublishBegin? && !bs[m].closed
    requires p < |bs[m].published| && !InProgress(bs[m], p)
    requires c in bs[n].chans && InWindow(bs[n].published, bs[n].chans[c], p)
    ensures Precedes(bs[n].chans[c].offeredAt, p, |bs[m].published|)
    ensures |bs[m + 1].published| == |bs[m].published| + 1
  {
    OfferedFirst(bs, steps, m, n, c, p, |bs[m].published|);
  }

  // ---- The order is kept no further ----

  lemma RunExtends<C(!new)>(bs: seq<Bus<C>>, steps: seq<Step<C>>, st: Step<C>)
    requires IsRun(bs, steps) && Enabled(bs[|steps|], st)
    ensures IsRun(bs + [Do(bs[|steps|], st)], steps + [st])
  {
    hide Do, Enabled;
    var bs', steps' := bs + [Do(bs[|steps|], st)], steps + [st];
    forall i | 0 <= i < |steps'| ensures Enabled(bs'[i], steps'[i]) && bs'[i + 1] == Do(bs'[i], steps'[i]) {
      if i < |steps| {
        assert Enabled(bs[i], steps[i]) && bs[i + 1] == Do(bs[i], steps[i]);
      }
    }
  }

  /** The k-th publish in progress runs to its end. */
  lemma {:induction false} ServeRun<C(!new)>(bs: seq<Bus<C>>, steps: seq<Step<C>>, k: nat)
    returns (bs': seq<Bus<C>>, steps': seq<Step<C>>)
    requires IsRun(bs, steps) && k < |bs[|steps|].publishers|
    ensures IsRun(bs', steps') && bs <= bs' && steps <= steps'
    ensures bs'[|steps'|] == ServeAll(bs[|steps|], k)
    decreases |bs[|steps|].publishers[k].rest|
  {
    var b := bs[|steps|];
    if b.publishers[k].rest == [] {
      bs', steps' := bs, steps;
    } else {
      RunExtends(bs, steps, PublishSend(k));
      bs', steps' := ServeRun(bs + [AfterSend(b, k)], steps + [PublishSend(k)], k);
    }
  }

  /** However the run goes on, the next event published is not offered to `c`
      before the one at `p`. */
  ghost predicate KeepsOrder<C(!new)>(bs: seq<Bus<C>>, steps: seq<Step<C>>, c: C, p: nat)
    requires IsRun(bs, steps)
  {
    forall bs': seq<Bus<C>>, steps': seq<Step<C>> ::
      IsRun(bs', steps') && bs <= bs' && steps <= steps' && c in bs'[|steps'|].chans ==>
        Precedes(bs'[|steps'|].chans[c].offeredAt, p, |bs[|steps|].published|)
  }

  /** The next publish begins and runs to its end. */
  lemma PublishRun<C(!new)>(bs: seq<Bus<C>>, steps: seq<Step<C>>, c: C, e: Event)
    returns (bs': seq<Bus<C>>, steps': seq<Step<C>>)
    requires IsRun(bs, steps) && !bs[|steps|].closed && c in ListOf(bs[|steps|].subs, e.typ)
    ensures IsRun(bs', steps') && bs <= bs' && steps <= steps'
    ensures c in bs[|steps|].chans && c in bs'[|steps'|].chans
    ensures bs'[|steps'|].chans[c].offeredAt == bs[|steps|].chans[c].offeredAt + [|bs[|steps|].published|]
  {
    hide Do, Enabled, Accounted;
    var b := bs[|steps|];
    var begun, k := AfterPublishBegin(b, e), |b.publishers|;
    BeginRun(bs, steps, e);
    DeliversHolds(bs + [begun], steps + [PublishBegin(e)], |steps| + 1);
    assert begun.publishers[k] == Publisher(e, ListOf(b.subs, e.typ), |b.published|);
    ServeAllOffersOnce(begun, k, c);
    bs', steps' := ServeRun(bs + [begun], steps + [PublishBegin(e)], k);
  }

  lemma BeginRun<C(!new)>(bs: seq<Bus<C>>, steps: seq<Step<C>>, e: Event)
    requires IsRun(bs, steps)
    ensures IsRun(bs + [AfterPublishBegin(bs[|steps|], e)], steps + [PublishBegin(e)])
  {
    RunExtends(bs, steps, PublishBegin(e));
  }

  /** While `p` is still to be offered to `c`, a publish that begins now can
      overtake it. */
  lemma Overtaken<C(!new)>(bs: seq<Bus<C>>, steps: seq<Step<C>>, c: C, p: nat)
    requires IsRun(bs, steps) && c in bs[|steps|].chans && Pending(bs[|steps|], c, p)
    ensures !KeepsOrder(bs, steps, c, p)
  {
    hide Do, Enabled, Owned;
    var b, ch := bs[|steps|], bs[|steps|].chans[c];
    PlacedHolds(bs, steps, |steps|);
    assert Matched(b, c) && p !in ch.offeredAt && p < |b.published|;
    var k :| 0 <= k < |b.publishers| && b.publishers[k].at == p && c in b.publishers[k].rest;
    ListedForType(b, k, c);
    var bs', steps' := PublishRun(bs, steps, c, b.publishers[k].event);
    assert bs'[|steps'|].chans[c].offeredAt[|ch.offeredAt|] == |b.published|;
  }

  lemma ListedForType<C(!new)>(b: Bus<C>, k: nat, c: C)
    requires Owned(b) && k < |b.publishers| && c in b.publishers[k].rest
    ensures c in ListOf(b.subs, b.publishers[k].event.typ)
  {
  }

  /** The order of publication is kept for a channel exactly when, as the later
      publish begins, nobody has yet to offer it the earlier event. */
  lemma KeepsOrderIff<C(!new)>(bs: seq<Bus<C>>, steps: seq<Step<C>>, c: C, p: nat)
    requires IsRun(bs, steps) && c in bs[|steps|].chans
    requires InWindow(bs[|steps|].published, bs[|steps|].chans[c], p)
    ensures KeepsOrder(bs, steps, c, p) <==> !Pending(bs[|steps|], c, p)
  {
    var m := |steps|;
    if Pending(bs[m], c, p) {
      Overtaken(bs, steps, c, p);
    } else {
      forall bs': seq<Bus<C>>, steps': seq<Step<C>>
        | IsRun(bs', steps') && bs <= bs' && steps <= steps' && c in bs'[|steps'|].chans
        ensures Precedes(bs'[|steps'|].chans[c].offeredAt, p, |bs[m].published|)
      {
        StillInWindow(bs', steps', m, |steps'|, c, p);
        OfferedFirst(bs', steps', m, |steps'|, c, p, |bs[m].published|);
      }
    }
  }

  lemma StillInWindow<C(!new)>(bs: seq<Bus<C>>, steps: seq<Step<C>>, m: nat, n: nat, c: C, p: nat)
    requires IsRun(bs, steps) && m <= n < |bs| && c in bs[m].chans
    requires InWindow(bs[m].published, bs[m].chans[c], p)
    ensures c in bs[n].chans && InWindow(bs[n].published, bs[n].chans[c], p)
  {
    LaterExtends(bs, steps, m, n);
  }
}
