/** Publishes that do not overlap are offered in the order they were made. */
module BusOrder {
  import opened Collections
  import opened BusSteps
  import opened BusDelivery

  /** At most one publish is in progress. */
  ghost predicate OneAtATime<C>(b: Bus<C>) {
    |b.publishers| <= 1
  }

  /** The event that is still to be offered to `c`, if any. */
  function ToCome<C(==)>(b: Bus<C>, c: C): seq<Event> {
    if |b.publishers| == 1 && c in b.publishers[0].rest then [b.publishers[0].event] else []
  }

  /** Offers made, then the one to come, are the events of the window in order. */
  ghost predicate InOrder<C>(b: Bus<C>, c: C)
    requires c in b.chans
  {
    var ch := b.chans[c];
    WindowOk(b.published, ch) && ch.offered + ToCome(b, c) == OfType(Window(b.published, ch), ch.typ)
  }

  ghost predicate AllInOrder<C(!new)>(b: Bus<C>) {
    forall c :: c in b.chans ==> InOrder(b, c)
  }

  lemma OrderPublish<C(!new)>(b: Bus<C>, e: Event)
    requires Owned(b) && AllInOrder(b) && OneAtATime(AfterPublishBegin(b, e))
    ensures AllInOrder(AfterPublishBegin(b, e))
  {
    var b' := AfterPublishBegin(b, e);
    if !b.closed {
      assert b.publishers == [];
      forall x | x in b'.chans ensures InOrder(b', x) {
        assert InOrder(b, x);
        WindowGrows(b.published, b.chans[x], e);
      }
    }
  }

  lemma ServedChannel<C(!new)>(b: Bus<C>, x: C)
    requires Owned(b) && |b.publishers| == 1 && |b.publishers[0].rest| > 0 && x in b.chans
    ensures var p := b.publishers[0];
      x in AfterSend(b, 0).chans
      && AfterSend(b, 0).chans[x] == if x == p.rest[0] then Offer(b.chans[x], p.event, p.at) else b.chans[x]
  {
    var p := b.publishers[0];
    assert p.rest[0] in p.rest && p.rest[0] in ListOf(b.subs, p.event.typ);
  }

  lemma OrderSendAt<C(!new)>(b: Bus<C>, x: C)
    requires Owned(b) && |b.publishers| == 1 && |b.publishers[0].rest| > 0 && Distinct(b.publishers[0].rest)
    requires x in b.chans && InOrder(b, x) && x in AfterSend(b, 0).chans
    ensures InOrder(AfterSend(b, 0), x)
  {
    ServedChannel(b, x);
  }

  lemma OrderSend<C(!new)>(b: Bus<C>)
    requires Owned(b) && |b.publishers| == 1 && |b.publishers[0].rest| > 0 && Distinct(b.publishers[0].rest)
    requires AllInOrder(b)
    ensures AllInOrder(AfterSend(b, 0))
  {
    forall x | x in AfterSend(b, 0).chans ensures InOrder(AfterSend(b, 0), x) {
      OrderSendAt(b, x);
    }
  }

  lemma ClosingKeepsOrder<C>(b: Bus<C>, b': Bus<C>, c: C)
    requires c in b.chans && InOrder(b, c) && !b.chans[c].closed && b.publishers == []
    requires b'.publishers == [] && b'.published == b.published
    requires c in b'.chans && b'.chans[c] == Closing(b.chans[c], |b.published|)
    ensures InOrder(b', c)
  {
    assert b.published[b.chans[c].since..|b.published|] == b.published[b.chans[c].since..];
  }

  lemma OrderUnsubscribe<C(!new)>(b: Bus<C>, t: string, c: C)
    requires Owned(b) && AllInOrder(b) && b.publishers == []
    ensures AllInOrder(AfterUnsubscribe(b, t, c))
  {
    var b' := AfterUnsubscribe(b, t, c);
    forall x | x in b'.chans ensures InOrder(b', x) {
      assert InOrder(b, x);
      if x == c && c in ListOf(b.subs, t) {
        ClosingKeepsOrder(b, b', c);
      }
    }
  }

  lemma OrderClose<C(!new)>(b: Bus<C>)
    requires Owned(b) && AllInOrder(b) && b.publishers == []
    ensures AllInOrder(AfterClose(b))
  {
    var b' := AfterClose(b);
    forall x | x in b'.chans ensures InOrder(b', x) {
      assert InOrder(b, x);
      if Listed(b, x) {
        ClosingKeepsOrder(b, b', x);
      }
    }
  }

  lemma OrderReceive<C(!new)>(b: Bus<C>, c: C)
    requires AllInOrder(b) && c in b.chans && |b.chans[c].buf| > 0
    ensures AllInOrder(AfterReceive(b, c))
  {
    hide OfType;
    forall x | x in b.chans ensures InOrder(AfterReceive(b, c), x) {
      assert InOrder(b, x);
    }
  }

  lemma OrderStep<C(!new)>(b: Bus<C>, st: Step<C>)
    requires Delivers(b) && AllInOrder(b) && Enabled(b, st) && OneAtATime(b) && OneAtATime(Do(b, st))
    ensures AllInOrder(Do(b, st))
  {
    match st
    case Subscribe(t, c) =>
    case Unsubscribe(t, c) => OrderUnsubscribe(b, t, c);
    case Close => OrderClose(b);
    case PublishBegin(e) => OrderPublish(b, e);
    case PublishSend(k) => OrderSend(b);
    case PublishEnd(k) =>
    case Receive(c) => OrderReceive(b, c);
  }

  lemma {:induction false} OrderHolds<C(!new)>(bs: seq<Bus<C>>, steps: seq<Step<C>>, n: nat)
    requires IsRun(bs, steps) && n < |bs| && forall i :: 0 <= i <= n ==> OneAtATime(bs[i])
    ensures AllInOrder(bs[n])
  {
    if n > 0 {
      OrderHolds(bs, steps, n - 1);
      DeliversHolds(bs, steps, n - 1);
      assert OneAtATime(bs[n - 1]) && OneAtATime(bs[n]);
      OrderStep(bs[n - 1], steps[n - 1]);
    }
  }

  /** If publishes never overlap, each channel was offered exactly the events of
      its type published while it was subscribed, in the order of publication. */
  lemma OfferedInOrder<C(!new)>(bs: seq<Bus<C>>, steps: seq<Step<C>>, n: nat, c: C)
    requires IsRun(bs, steps) && n < |bs| && forall i :: 0 <= i <= n ==> OneAtATime(bs[i])
    requires c in bs[n].chans && bs[n].publishers == []
    ensures var ch := bs[n].chans[c];
      WindowOk(bs[n].published, ch) && ch.offered == OfType(Window(bs[n].published, ch), ch.typ)
  {
    OrderHolds(bs, steps, n);
    assert InOrder(bs[n], c);
  }

  /** And its consumer gets exactly those in that order, if and only if its buffer
      was never full when an event was offered. */
  lemma GetsThemInOrderIffKeptUp<C(!new)>(bs: seq<Bus<C>>, steps: seq<Step<C>>, n: nat, c: C)
    requires IsRun(bs, steps) && n < |bs| && forall i :: 0 <= i <= n ==> OneAtATime(bs[i])
    requires c in bs[n].chans && bs[n].publishers == []
    ensures var ch := bs[n].chans[c];
      && WindowOk(bs[n].published, ch)
      && (ch.received + ch.buf == OfType(Window(bs[n].published, ch), ch.typ) <==> KeptUp(bs, steps, n, c))
  {
    OfferedInOrder(bs, steps, n, c);
    GetsEverythingIffKeptUp(bs, steps, n, c);
  }
}
