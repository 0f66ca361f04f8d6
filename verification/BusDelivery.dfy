/** What a subscriber receives, over every run of the event bus. */
module BusDelivery {
  import opened Collections
  import opened BusSteps

  function OfType(s: seq<Event>, typ: string): seq<Event> {
    if s == [] then []
    else OfType(s[..|s| - 1], typ) + (if s[|s| - 1].typ == typ then [s[|s| - 1]] else [])
  }

  /** The events published while the channel was subscribed. */
  function Window(published: seq<Event>, ch: Chan): seq<Event>
    requires WindowOk(published, ch)
  {
    if ch.closed then published[ch.since..ch.until] else published[ch.since..]
  }

  /** How often publishers have yet to offer `e` to `c`. */
  ghost function PendingFor<C>(pubs: seq<Publisher<C>>, c: C, e: Event): nat {
    if pubs == [] then 0
    else
      var last := pubs[|pubs| - 1];
      PendingFor(pubs[..|pubs| - 1], c, e) + OneIf(c in last.rest && last.event == e)
  }

  /** Buffer bound, order, and the account of offers. */
  ghost predicate Buffered(ch: Chan) {
    && |ch.buf| <= BUFFER
    && |ch.received| + |ch.buf| + ch.lost == |ch.offered|
    && IsSubsequence(ch.received + ch.buf, ch.offered)
    && (ch.lost == 0 ==> ch.received + ch.buf == ch.offered)
  }

  predicate WindowOk(published: seq<Event>, ch: Chan) {
    ch.since <= (if ch.closed then ch.until else |published|) <= |published|
  }

  /** Offers made plus offers still to come are the events of the window. */
  ghost predicate OffersMatch<C>(pubs: seq<Publisher<C>>, published: seq<Event>, c: C, ch: Chan)
    requires WindowOk(published, ch)
  {
    forall e :: multiset(ch.offered)[e] + PendingFor(pubs, c, e) == multiset(OfType(Window(published, ch), ch.typ))[e]
  }

  ghost predicate Accounted<C>(b: Bus<C>, c: C)
    requires c in b.chans
  {
    var ch := b.chans[c];
    Buffered(ch) && WindowOk(b.published, ch) && OffersMatch(b.publishers, b.published, c, ch)
  }

  ghost predicate Delivers<C(!new)>(b: Bus<C>) {
    && Owned(b)
    && (forall k :: 0 <= k < |b.publishers| ==> Distinct(b.publishers[k].rest))
    && (forall c :: c in b.chans ==> Accounted(b, c))
  }

  // ---- One offer, one receipt ----

  lemma OfferKeepsBuffered(ch: Chan, e: Event, at: nat)
    requires Buffered(ch)
    ensures Buffered(Offer(ch, e, at))
    ensures Offer(ch, e, at).lost == ch.lost + OneIf(|ch.buf| == BUFFER)
  {
    SubsequenceGrows(ch.received + ch.buf, ch.offered, e);
    assert ch.received + (ch.buf + [e]) == ch.received + ch.buf + [e];
  }

  lemma ReceiveKeepsBuffered(ch: Chan)
    requires Buffered(ch) && |ch.buf| > 0
    ensures Buffered(ch.(buf := ch.buf[1..], received := ch.received + [ch.buf[0]]))
  {
    assert ch.received + [ch.buf[0]] + ch.buf[1..] == ch.received + ch.buf;
  }

  lemma EmptyIsBuffered(typ: string, since: nat)
    ensures Buffered(NewChan(typ, since))
  {
    var none: seq<Event> := [];
    assert Embeds(none + none, none, []);
  }

  // ---- Pending offers ----

  lemma {:induction false} PendingUpdate<C>(pubs: seq<Publisher<C>>, k: nat, p: Publisher<C>, x: C, e: Event)
    requires k < |pubs|
    ensures PendingFor(pubs[k := p], x, e) + OneIf(x in pubs[k].rest && pubs[k].event == e)
         == PendingFor(pubs, x, e) + OneIf(x in p.rest && p.event == e)
  {
    var n := |pubs| - 1;
    if k == n {
      assert pubs[k := p][..n] == pubs[..n];
    } else {
      PendingUpdate(pubs[..n], k, p, x, e);
      assert pubs[k := p][..n] == pubs[..n][k := p];
    }
  }

  lemma PendingServed<C>(pubs: seq<Publisher<C>>, k: nat, x: C, e: Event)
    requires k < |pubs| && |pubs[k].rest| > 0 && Distinct(pubs[k].rest)
    ensures var p := pubs[k];
      PendingFor(pubs, x, e)
        == PendingFor(pubs[k := p.(rest := p.rest[1..])], x, e) + OneIf(x == p.rest[0] && p.event == e)
  {
    var p := pubs[k];
    assert p.rest == [p.rest[0]] + p.rest[1..];
    PendingUpdate(pubs, k, p.(rest := p.rest[1..]), x, e);
  }

  lemma {:induction false} PendingWithout<C>(pubs: seq<Publisher<C>>, k: nat, x: C, e: Event)
    requires k < |pubs| && pubs[k].rest == []
    ensures PendingFor(pubs[..k] + pubs[k + 1..], x, e) == PendingFor(pubs, x, e)
  {
    var n := |pubs| - 1;
    var without := pubs[..k] + pubs[k + 1..];
    if k == n {
      assert without == pubs[..n];
    } else {
      PendingWithout(pubs[..n], k, x, e);
      assert without[..n - 1] == pubs[..n][..k] + pubs[..n][k + 1..];
      assert without[n - 1] == pubs[n];
    }
  }

  // ---- Preservation ----

  /** Serving the head of a publisher's list is one offer to that channel. */
  lemma AccountedSend<C(!new)>(b: Bus<C>, k: nat, x: C)
    requires Delivers(b) && k < |b.publishers| && |b.publishers[k].rest| > 0 && x in b.chans
    ensures x in AfterSend(b, k).chans && Accounted(AfterSend(b, k), x)
  {
    var b', p, ch := AfterSend(b, k), b.publishers[k], b.chans[x];
    assert p.rest[0] in p.rest && p.rest[0] in ListOf(b.subs, p.event.typ);
    assert Accounted(b, x);
    var ch' := if x == p.rest[0] then Offer(ch, p.event, p.at) else ch;
    assert b'.chans[x] == ch';
    OfferKeepsBuffered(ch, p.event, p.at);
    forall e ensures multiset(ch'.offered)[e] + PendingFor(b'.publishers, x, e)
                  == multiset(OfType(Window(b.published, ch), ch.typ))[e] {
      PendingServed(b.publishers, k, x, e);
    }
  }

  lemma DeliversSend<C(!new)>(b: Bus<C>, k: nat)
    requires Delivers(b) && k < |b.publishers| && |b.publishers[k].rest| > 0
    ensures Delivers(AfterSend(b, k))
  {
    OwnedSend(b, k);
    forall x | x in b.chans ensures Accounted(AfterSend(b, k), x) {
      AccountedSend(b, k, x);
    }
    RestsStayDistinct(b, k);
  }

  lemma RestsStayDistinct<C(!new)>(b: Bus<C>, k: nat)
    requires Delivers(b) && k < |b.publishers| && |b.publishers[k].rest| > 0
    ensures forall i :: 0 <= i < |AfterSend(b, k).publishers| ==> Distinct(AfterSend(b, k).publishers[i].rest)
  {
    assert Distinct(b.publishers[k].rest[1..]);
  }

  lemma OfTypeSnoc(s: seq<Event>, e: Event, typ: string)
    ensures OfType(s + [e], typ) == OfType(s, typ) + (if e.typ == typ then [e] else [])
  {
    assert (s + [e])[..|s|] == s;
  }

  lemma PendingSnoc<C>(pubs: seq<Publisher<C>>, p: Publisher<C>, x: C, e: Event)
    ensures PendingFor(pubs + [p], x, e) == PendingFor(pubs, x, e) + OneIf(x in p.rest && p.event == e)
  {
    assert (pubs + [p])[..|pubs|] == pubs;
  }

  /** A channel is listed under the type of an event exactly when it is open and
      of that type. */
  lemma ListedByType<C(!new)>(b: Bus<C>, x: C, typ: string)
    requires Owned(b) && x in b.chans
    ensures x in ListOf(b.subs, typ) <==> !b.chans[x].closed && b.chans[x].typ == typ
  {
  }

  /** Publishing adds the event to the windows of the channels listed for it. */
  lemma WindowGrows(published: seq<Event>, ch: Chan, e: Event)
    requires WindowOk(published, ch)
    ensures WindowOk(published + [e], ch)
    ensures OfType(Window(published + [e], ch), ch.typ)
         == OfType(Window(published, ch), ch.typ) + (if !ch.closed && e.typ == ch.typ then [e] else [])
  {
    if ch.closed {
      assert (published + [e])[ch.since..ch.until] == published[ch.since..ch.until];
    } else {
      assert (published + [e])[ch.since..] == published[ch.since..] + [e];
      OfTypeSnoc(published[ch.since..], e, ch.typ);
    }
  }

  lemma AccountedPublish<C(!new)>(b: Bus<C>, e: Event, x: C)
    requires Delivers(b) && !b.closed && x in b.chans
    ensures Accounted(AfterPublishBegin(b, e), x)
  {
    var b', ch, p := AfterPublishBegin(b, e), b.chans[x], Publisher(e, ListOf(b.subs, e.typ), |b.published|);
    assert Accounted(b, x);
    ListedByType(b, x, e.typ);
    WindowGrows(b.published, ch, e);
    forall f ensures multiset(ch.offered)[f] + PendingFor(b'.publishers, x, f)
                  == multiset(OfType(Window(b'.published, ch), ch.typ))[f] {
      PendingSnoc(b.publishers, p, x, f);
      assert multiset(ch.offered)[f] + PendingFor(b.publishers, x, f)
          == multiset(OfType(Window(b.published, ch), ch.typ))[f];
    }
  }

  lemma DeliversPublish<C(!new)>(b: Bus<C>, e: Event)
    requires Delivers(b)
    ensures Delivers(AfterPublishBegin(b, e))
  {
    OwnedPublish(b, e);
    if !b.closed {
      forall x | x in b.chans ensures Accounted(AfterPublishBegin(b, e), x) {
        AccountedPublish(b, e, x);
      }
    }
  }

  lemma DeliversPublishEnd<C(!new)>(b: Bus<C>, k: nat)
    requires Delivers(b) && k < |b.publishers| && b.publishers[k].rest == []
    ensures Delivers(AfterPublishEnd(b, k))
  {
    var b' := AfterPublishEnd(b, k);
    OwnedPublishEnd(b, k);
    forall i | 0 <= i < |b'.publishers| ensures Distinct(b'.publishers[i].rest) {
      assert b'.publishers[i] == if i < k then b.publishers[i] else b.publishers[i + 1];
    }
    forall x | x in b'.chans ensures Accounted(b', x) {
      assert Accounted(b, x);
      forall e ensures PendingFor(b'.publishers, x, e) == PendingFor(b.publishers, x, e) {
        PendingWithout(b.publishers, k, x, e);
      }
    }
  }

  lemma DeliversSubscribe<C(!new)>(b: Bus<C>, t: string, c: C)
    requires Delivers(b) && b.publishers == [] && c !in b.chans
    ensures Delivers(AfterSubscribe(b, t, c))
  {
    var b' := AfterSubscribe(b, t, c);
    OwnedSubscribe(b, t, c);
    forall x | x in b'.chans ensures Accounted(b', x) {
      if x == c {
        EmptyIsBuffered(t, |b.published|);
        assert b.published[|b.published|..] == [];
      } else {
        assert Accounted(b, x);
      }
    }
  }

  lemma ClosingKeepsAccount<C>(b: Bus<C>, c: C)
    requires c in b.chans && Accounted(b, c) && !b.chans[c].closed && b.publishers == []
    ensures var b' := b.(chans := b.chans[c := Closing(b.chans[c], |b.published|)]); Accounted(b', c)
  {
    assert b.published[b.chans[c].since..|b.published|] == b.published[b.chans[c].since..];
  }

  lemma DeliversUnsubscribe<C(!new)>(b: Bus<C>, t: string, c: C)
    requires Delivers(b) && b.publishers == []
    ensures Delivers(AfterUnsubscribe(b, t, c))
  {
    var b' := AfterUnsubscribe(b, t, c);
    OwnedUnsubscribe(b, t, c);
    forall x | x in b'.chans ensures Accounted(b', x) {
      assert Accounted(b, x);
      if x == c && c in ListOf(b.subs, t) {
        ClosingKeepsAccount(b, c);
      }
    }
  }

  lemma DeliversClose<C(!new)>(b: Bus<C>)
    requires Delivers(b) && b.publishers == []
    ensures Delivers(AfterClose(b))
  {
    var b' := AfterClose(b);
    OwnedClose(b);
    forall x | x in b'.chans ensures Accounted(b', x) {
      assert Accounted(b, x);
      if Listed(b, x) {
        ClosingKeepsAccount(b, x);
      }
    }
  }

  lemma DeliversReceive<C(!new)>(b: Bus<C>, c: C)
    requires Delivers(b) && c in b.chans && |b.chans[c].buf| > 0
    ensures Delivers(AfterReceive(b, c))
  {
    var b' := AfterReceive(b, c);
    OwnedReceive(b, c);
    ReceiveKeepsBuffered(b.chans[c]);
    forall x | x in b'.chans ensures Accounted(b', x) {
      assert Accounted(b, x);
    }
  }

  lemma DeliversStep<C(!new)>(b: Bus<C>, st: Step<C>)
    requires Delivers(b) && Enabled(b, st)
    ensures Delivers(Do(b, st))
  {
    match st
    case Subscribe(t, c) => DeliversSubscribe(b, t, c);
    case Unsubscribe(t, c) => DeliversUnsubscribe(b, t, c);
    case Close => DeliversClose(b);
    case PublishBegin(e) => DeliversPublish(b, e);
    case PublishSend(k) => DeliversSend(b, k);
    case PublishEnd(k) => DeliversPublishEnd(b, k);
    case Receive(c) => DeliversReceive(b, c);
  }

  lemma {:induction false} DeliversHolds<C(!new)>(bs: seq<Bus<C>>, steps: seq<Step<C>>, n: nat)
    requires IsRun(bs, steps) && n < |bs|
    ensures Delivers(bs[n])
  {
    if n > 0 {
      DeliversHolds(bs, steps, n - 1);
      DeliversStep(bs[n - 1], steps[n - 1]);
    }
  }

  // ---- Main results ----

  /** Whenever no publish is in progress, the events offered to a channel are
      exactly the events of its type published while it was subscribed; what was
      received and is still buffered is a subsequence of the offers. */
  lemma SubscribersAreOffered<C(!new)>(bs: seq<Bus<C>>, steps: seq<Step<C>>, n: nat, c: C)
    requires IsRun(bs, steps) && n < |bs| && c in bs[n].chans
    ensures var ch := bs[n].chans[c];
      && IsSubsequence(ch.received + ch.buf, ch.offered)
      && |ch.received| + |ch.buf| + ch.lost == |ch.offered|
      && |ch.buf| <= 64
      && WindowOk(bs[n].published, ch)
      && (bs[n].publishers == [] ==>
            multiset(ch.offered) == multiset(OfType(Window(bs[n].published, ch), ch.typ)))
  {
    DeliversHolds(bs, steps, n);
    assert Accounted(bs[n], c);
    if bs[n].publishers == [] {
      var ch := bs[n].chans[c];
      assert forall e :: PendingFor(bs[n].publishers, c, e) == 0;
      assert forall e :: multiset(ch.offered)[e] == multiset(OfType(Window(bs[n].published, ch), ch.typ))[e];
    }
  }

  predicate Offers<C(==)>(b: Bus<C>, st: Step<C>, c: C) {
    st.PublishSend? && st.k < |b.publishers| && |b.publishers[st.k].rest| > 0 && b.publishers[st.k].rest[0] == c
  }

  /** An event is offered to `c` while its buffer is full. */
  predicate Loses<C(==)>(b: Bus<C>, st: Step<C>, c: C) {
    c in b.chans && Offers(b, st, c) && |b.chans[c].buf| == 64
  }

  /** None of the first `n` steps offered an event to `c` while its buffer was full. */
  ghost predicate KeptUp<C(!new)>(bs: seq<Bus<C>>, steps: seq<Step<C>>, n: nat, c: C)
    requires n <= |steps| && |bs| == |steps| + 1
  {
    forall i :: 0 <= i < n ==> !Loses(bs[i], steps[i], c)
  }

  lemma LossOfSend<C(!new)>(b: Bus<C>, k: nat, c: C)
    requires Delivers(b) && k < |b.publishers| && |b.publishers[k].rest| > 0 && c in b.chans
    ensures var b' := AfterSend(b, k);
      && c in b'.chans
      && b'.chans[c].lost
           == b.chans[c].lost + OneIf(b.publishers[k].rest[0] == c && |b.chans[c].buf| == BUFFER)
  {
    assert Accounted(b, c);
    assert b.publishers[k].rest[0] in b.publishers[k].rest;
    assert b.publishers[k].rest[0] in ListOf(b.subs, b.publishers[k].event.typ);
  }

  lemma OthersLoseNothing<C(!new)>(b: Bus<C>, st: Step<C>, c: C)
    requires Enabled(b, st) && !st.PublishSend? && c in b.chans
    ensures c in Do(b, st).chans && Do(b, st).chans[c].lost == b.chans[c].lost
  {
  }

  /** A step loses an event for `c` exactly when it offers one while 64 are
      buffered. */
  lemma LossIffBufferFull<C(!new)>(bs: seq<Bus<C>>, steps: seq<Step<C>>, n: nat, c: C)
    requires IsRun(bs, steps) && n < |steps| && c in bs[n].chans
    ensures c in bs[n + 1].chans
    ensures bs[n + 1].chans[c].lost
         == bs[n].chans[c].lost + OneIf(Loses(bs[n], steps[n], c))
  {
    DeliversHolds(bs, steps, n);
    if steps[n].PublishSend? {
      LossOfSend(bs[n], steps[n].k, c);
    } else {
      OthersLoseNothing(bs[n], steps[n], c);
    }
  }

  /** No step removes a channel. */
  lemma {:induction false} ChannelsStay<C(!new)>(bs: seq<Bus<C>>, steps: seq<Step<C>>, n: nat, c: C)
    requires IsRun(bs, steps) && n < |bs| && c !in bs[n].chans
    ensures forall i :: 0 <= i <= n ==> c !in bs[i].chans
  {
    if n > 0 {
      assert Enabled(bs[n - 1], steps[n - 1]);
      ChannelsStay(bs, steps, n - 1, c);
    }
  }

  /** A consumer gets every event, in the order offered, exactly when its buffer
      was never full when an event was offered. */
  lemma {:induction false} GetsEverythingIffKeptUp<C(!new)>(bs: seq<Bus<C>>, steps: seq<Step<C>>, n: nat, c: C)
    requires IsRun(bs, steps) && n < |bs| && c in bs[n].chans
    ensures bs[n].chans[c].lost == 0 <==> KeptUp(bs, steps, n, c)
    ensures bs[n].chans[c].received + bs[n].chans[c].buf == bs[n].chans[c].offered <==> KeptUp(bs, steps, n, c)
  {
    DeliversHolds(bs, steps, n);
    assert Accounted(bs[n], c);
    if n > 0 {
      if c in bs[n - 1].chans {
        GetsEverythingIffKeptUp(bs, steps, n - 1, c);
        LossIffBufferFull(bs, steps, n - 1, c);
      } else {
        ChannelsStay(bs, steps, n - 1, c);
        NewChannelHasLostNothing(bs[n - 1], steps[n - 1], c);
      }
    }
  }

  lemma NewChannelHasLostNothing<C(!new)>(b: Bus<C>, st: Step<C>, c: C)
    requires Enabled(b, st) && c !in b.chans && c in Do(b, st).chans
    ensures Do(b, st).chans[c].lost == 0
  {
  }

  // ---- A publish that nobody interrupts ----

  ghost function ServeAll<C>(b: Bus<C>, k: nat): Bus<C>
    requires k < |b.publishers|
    decreases |b.publishers[k].rest|
  {
    if b.publishers[k].rest == [] then b else ServeAll(AfterSend(b, k), k)
  }

  /** It offers the event once to each channel of its list, and to no other. */
  lemma {:induction false} ServeAllOffersOnce<C(!new)>(b: Bus<C>, k: nat, x: C)
    requires Delivers(b) && k < |b.publishers| && x in b.chans
    ensures var b' := ServeAll(b, k);
      && Delivers(b') && x in b'.chans
      && b'.chans[x] == var p := b.publishers[k];
           if x in p.rest then Offer(b.chans[x], p.event, p.at) else b.chans[x]
    decreases |b.publishers[k].rest|
  {
    hide Accounted;
    var p := b.publishers[k];
    if p.rest != [] {
      DeliversSend(b, k);
      assert p.rest[0] in p.rest && p.rest[0] in ListOf(b.subs, p.event.typ);
      ServeAllOffersOnce(AfterSend(b, k), k, x);
      assert p.rest == [p.rest[0]] + p.rest[1..];
    }
  }
}
