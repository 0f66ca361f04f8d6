/** The event bus as a step system. Publishers hold the read lock and may
    interleave with each other and with consumers; the other operations hold the
    write lock. Sending on or closing a closed channel is a Go panic. */
module BusSteps {
  import opened Collections

  const BUFFER: nat := 64

  datatype Event = Event(typ: string, payload: string, traceId: string, timestamp: int)

  /** A channel and its history: `received` by the consumer, `offered` by
      publishers and at which positions these were published, `lost` offers, and
      the stretch `since..until` of the published events during which it was
      subscribed. */
  datatype Chan = Chan(typ: string, buf: seq<Event>, closed: bool, received: seq<Event>,
                       offered: seq<Event>, offeredAt: seq<nat>, lost: nat, since: nat, until: nat)

  function NewChan(typ: string, since: nat): Chan {
    Chan(typ, [], false, [], [], [], 0, since, 0)
  }

  /** A call of `Publish` in progress: the subscribers still to be served, and
      the position of its event among those published. */
  datatype Publisher<C> = Publisher(event: Event, rest: seq<C>, at: nat)

  datatype Bus<C> = Bus(subs: map<string, seq<C>>, chans: map<C, Chan>, closed: bool,
                        publishers: seq<Publisher<C>>, published: seq<Event>, panicked: bool)

  function Init<C(==)>(): Bus<C> {
    Bus(map[], map[], false, [], [], false)
  }

  datatype Step<C> =
    | Subscribe(typ: string, c: C)
    | Unsubscribe(typ: string, c: C)
    | Close
    | PublishBegin(e: Event)
    | PublishSend(k: nat)
    | PublishEnd(k: nat)
    | Receive(c: C)

  function ListOf<C>(subs: map<string, seq<C>>, typ: string): seq<C> {
    if typ in subs then subs[typ] else []
  }

  function RemoveFirst<C(==)>(s: seq<C>, c: C): seq<C> {
    if s == [] then [] else if s[0] == c then s[1..] else [s[0]] + RemoveFirst(s[1..], c)
  }

  function SubsWith<C>(subs: map<string, seq<C>>, typ: string, c: C): map<string, seq<C>> {
    subs[typ := ListOf(subs, typ) + [c]]
  }

  function SubsWithout<C(==)>(subs: map<string, seq<C>>, typ: string, c: C): map<string, seq<C>> {
    var left := RemoveFirst(ListOf(subs, typ), c);
    if left == [] then subs - {typ} else subs[typ := left]
  }

  /** A send that never blocks: buffered if there is room, lost otherwise. */
  function Sent(buf: seq<Event>, e: Event): seq<Event> {
    if |buf| < BUFFER then buf + [e] else buf
  }

  /** The event published at this position is sent. */
  function Offer(ch: Chan, e: Event, at: nat): Chan {
    ch.(buf := Sent(ch.buf, e), offered := ch.offered + [e], offeredAt := ch.offeredAt + [at],
        lost := ch.lost + OneIf(|ch.buf| >= BUFFER))
  }

  function Closing(ch: Chan, until: nat): Chan {
    ch.(closed := true, until := until)
  }

  ghost predicate Listed<C>(b: Bus<C>, c: C) {
    exists t :: t in b.subs && c in b.subs[t]
  }

  /** Closing every listed channel in turn meets no closed one. */
  ghost predicate SafeToCloseAll<C(!new)>(b: Bus<C>) {
    && (forall t :: t in b.subs ==> Distinct(b.subs[t]))
    && (forall t, u, c :: t in b.subs && u in b.subs && c in b.subs[t] && c in b.subs[u] ==> t == u)
    && (forall t, c :: t in b.subs && c in b.subs[t] ==> c in b.chans && !b.chans[c].closed)
  }

  ghost predicate Enabled<C>(b: Bus<C>, st: Step<C>) {
    match st
    case Subscribe(_, c) => b.publishers == [] && c !in b.chans
    case Unsubscribe(_, _) => b.publishers == []
    case Close => b.publishers == []
    case PublishBegin(_) => true
    case PublishSend(k) => k < |b.publishers| && |b.publishers[k].rest| > 0
    case PublishEnd(k) => k < |b.publishers| && b.publishers[k].rest == []
    case Receive(c) => c in b.chans && |b.chans[c].buf| > 0
  }

  function AfterSubscribe<C(==)>(b: Bus<C>, typ: string, c: C): Bus<C> {
    b.(subs := SubsWith(b.subs, typ, c),
       chans := b.chans[c := NewChan(typ, |b.published|)])
  }

  function AfterUnsubscribe<C(==)>(b: Bus<C>, typ: string, c: C): Bus<C> {
    var found := c in ListOf(b.subs, typ);
    b.(subs := SubsWithout(b.subs, typ, c),
       chans := if found && c in b.chans then b.chans[c := Closing(b.chans[c], |b.published|)] else b.chans,
       panicked := b.panicked || (found && (c !in b.chans || b.chans[c].closed)))
  }

  ghost function AfterClose<C(!new)>(b: Bus<C>): Bus<C> {
    b.(subs := map[], closed := true,
       chans := map c | c in b.chans :: if Listed(b, c) then Closing(b.chans[c], |b.published|) else b.chans[c],
       panicked := b.panicked || !SafeToCloseAll(b))
  }

  /** A closed bus returns an error and nothing happens. */
  function AfterPublishBegin<C(==)>(b: Bus<C>, e: Event): Bus<C> {
    if b.closed then b
    else b.(publishers := b.publishers + [Publisher(e, ListOf(b.subs, e.typ), |b.published|)],
            published := b.published + [e])
  }

  function AfterSend<C(==)>(b: Bus<C>, k: nat): Bus<C>
    requires k < |b.publishers| && |b.publishers[k].rest| > 0
  {
    var p := b.publishers[k];
    var c := p.rest[0];
    var served := b.(publishers := b.publishers[k := p.(rest := p.rest[1..])]);
    if c !in b.chans || b.chans[c].closed then served.(panicked := true)
    else served.(chans := b.chans[c := Offer(b.chans[c], p.event, p.at)])
  }

  function AfterPublishEnd<C(==)>(b: Bus<C>, k: nat): Bus<C>
    requires k < |b.publishers|
  {
    b.(publishers := b.publishers[..k] + b.publishers[k + 1..])
  }

  function AfterReceive<C(==)>(b: Bus<C>, c: C): Bus<C>
    requires c in b.chans && |b.chans[c].buf| > 0
  {
    var ch := b.chans[c];
    b.(chans := b.chans[c := ch.(buf := ch.buf[1..], received := ch.received + [ch.buf[0]])])
  }

  ghost function Do<C(!new)>(b: Bus<C>, st: Step<C>): Bus<C>
    requires Enabled(b, st)
  {
    match st
    case Subscribe(t, c) => AfterSubscribe(b, t, c)
    case Unsubscribe(t, c) => AfterUnsubscribe(b, t, c)
    case Close => AfterClose(b)
    case PublishBegin(e) => AfterPublishBegin(b, e)
    case PublishSend(k) => AfterSend(b, k)
    case PublishEnd(k) => AfterPublishEnd(b, k)
    case Receive(c) => AfterReceive(b, c)
  }

  ghost predicate IsRun<C(!new)>(bs: seq<Bus<C>>, steps: seq<Step<C>>) {
    && |bs| == |steps| + 1
    && bs[0] == Init()
    && forall i :: 0 <= i < |steps| ==> Enabled(bs[i], steps[i]) && bs[i + 1] == Do(bs[i], steps[i])
  }

  // ---- Ownership of channels ----

  /** Every listed channel is open and has the type it is listed under, once;
      every open channel is listed; publishers only hold listed channels. */
  ghost predicate Owned<C(!new)>(b: Bus<C>) {
    && (forall t :: t in b.subs ==> Distinct(b.subs[t]))
    && (forall t, c :: t in b.subs && c in b.subs[t] ==> c in b.chans && !b.chans[c].closed && b.chans[c].typ == t)
    && (forall c :: c in b.chans && !b.chans[c].closed ==> c in ListOf(b.subs, b.chans[c].typ))
    && (forall k, c ::
          0 <= k < |b.publishers| && c in b.publishers[k].rest ==> c in ListOf(b.subs, b.publishers[k].event.typ))
    && !b.panicked
  }

  lemma {:induction false} RemoveFirstMembers<C>(s: seq<C>, c: C, x: C)
    requires Distinct(s)
    ensures Distinct(RemoveFirst(s, c))
    ensures x in RemoveFirst(s, c) <==> x in s && x != c
  {
    if s != [] {
      var rest := s[1..];
      forall y | y in RemoveFirst(rest, c) ensures y in rest {
        RemoveFirstMembers(rest, c, y);
      }
      RemoveFirstMembers(rest, c, x);
      assert s == [s[0]] + rest;
      assert s[0] !in rest;
    }
  }

  lemma OwnedSubscribe<C(!new)>(b: Bus<C>, t: string, c: C)
    requires Owned(b) && b.publishers == [] && c !in b.chans
    ensures Owned(AfterSubscribe(b, t, c))
  {
    assert c !in ListOf(b.subs, t);
  }

  lemma SubsWithLists<C>(subs: map<string, seq<C>>, t: string, c: C)
    ensures ListOf(SubsWith(subs, t, c), t) == ListOf(subs, t) + [c]
    ensures forall u :: u != t ==> ListOf(SubsWith(subs, t, c), u) == ListOf(subs, u)
  {
  }

  lemma SubsWithoutLists<C>(subs: map<string, seq<C>>, t: string, c: C)
    ensures ListOf(SubsWithout(subs, t, c), t) == RemoveFirst(ListOf(subs, t), c)
    ensures forall u :: u != t ==> ListOf(SubsWithout(subs, t, c), u) == ListOf(subs, u)
  {
  }

  lemma OwnedUnsubscribe<C(!new)>(b: Bus<C>, t: string, c: C)
    requires Owned(b) && b.publishers == []
    ensures Owned(AfterUnsubscribe(b, t, c))
  {
    hide RemoveFirst;
    var b', list := AfterUnsubscribe(b, t, c), ListOf(b.subs, t);
    forall x ensures x in RemoveFirst(list, c) <==> x in list && x != c {
      RemoveFirstMembers(list, c, x);
    }
    RemoveFirstMembers(list, c, c);
    SubsWithoutLists(b.subs, t, c);
  }

  lemma OwnedIsSafeToClose<C(!new)>(b: Bus<C>)
    requires Owned(b)
    ensures SafeToCloseAll(b)
  {
    forall t, u, c | t in b.subs && u in b.subs && c in b.subs[t] && c in b.subs[u] ensures t == u {
      assert b.chans[c].typ == t && b.chans[c].typ == u;
    }
  }

  lemma OwnedClose<C(!new)>(b: Bus<C>)
    requires Owned(b) && b.publishers == []
    ensures Owned(AfterClose(b))
  {
    OwnedIsSafeToClose(b);
    forall c | c in b.chans && !b.chans[c].closed ensures Listed(b, c) {
      assert c in b.subs[b.chans[c].typ];
    }
  }

  lemma OwnedSend<C(!new)>(b: Bus<C>, k: nat)
    requires Owned(b) && k < |b.publishers| && |b.publishers[k].rest| > 0
    ensures Owned(AfterSend(b, k))
  {
    var c := b.publishers[k].rest[0];
    assert c in b.publishers[k].rest;
    assert c in ListOf(b.subs, b.publishers[k].event.typ);
  }

  lemma OwnedPublish<C(!new)>(b: Bus<C>, e: Event)
    requires Owned(b)
    ensures Owned(AfterPublishBegin(b, e))
  {
  }

  lemma OwnedPublishEnd<C(!new)>(b: Bus<C>, k: nat)
    requires Owned(b) && k < |b.publishers|
    ensures Owned(AfterPublishEnd(b, k))
  {
    var b' := AfterPublishEnd(b, k);
    forall i | 0 <= i < |b'.publishers| ensures b'.publishers[i] in b.publishers {
    }
  }

  lemma OwnedReceive<C(!new)>(b: Bus<C>, c: C)
    requires Owned(b) && c in b.chans && |b.chans[c].buf| > 0
    ensures Owned(AfterReceive(b, c))
  {
  }

  lemma OwnedStep<C(!new)>(b: Bus<C>, st: Step<C>)
    requires Owned(b) && Enabled(b, st)
    ensures Owned(Do(b, st))
  {
    match st
    case Subscribe(t, c) => OwnedSubscribe(b, t, c);
    case Unsubscribe(t, c) => OwnedUnsubscribe(b, t, c);
    case Close => OwnedClose(b);
    case PublishBegin(e) => OwnedPublish(b, e);
    case PublishSend(k) => OwnedSend(b, k);
    case PublishEnd(k) => OwnedPublishEnd(b, k);
    case Receive(c) => OwnedReceive(b, c);
  }

  lemma {:induction false} OwnedHolds<C(!new)>(bs: seq<Bus<C>>, steps: seq<Step<C>>, n: nat)
    requires IsRun(bs, steps) && n < |bs|
    ensures Owned(bs[n])
  {
    if n > 0 {
      OwnedHolds(bs, steps, n - 1);
      OwnedStep(bs[n - 1], steps[n - 1]);
    }
  }

  lemma {:induction false} ClosedIsIdle<C(!new)>(bs: seq<Bus<C>>, steps: seq<Step<C>>, n: nat)
    requires IsRun(bs, steps) && n < |bs| && bs[n].closed
    ensures bs[n].publishers == []
  {
    if n > 0 {
      assert Enabled(bs[n - 1], steps[n - 1]) && bs[n] == Do(bs[n - 1], steps[n - 1]);
      if bs[n - 1].closed {
        ClosedIsIdle(bs, steps, n - 1);
      }
    }
  }

  /** A bus that has been closed stays closed; nothing more is published, and no
      publish is in progress. */
  lemma {:induction false} NothingAfterClose<C(!new)>(bs: seq<Bus<C>>, steps: seq<Step<C>>, m: nat, n: nat)
    requires IsRun(bs, steps) && m <= n < |bs| && bs[m].closed
    ensures bs[n].closed && bs[n].publishers == [] && bs[n].published == bs[m].published
    decreases n
  {
    if m == n {
      ClosedIsIdle(bs, steps, m);
    } else {
      NothingAfterClose(bs, steps, m, n - 1);
      assert Enabled(bs[n - 1], steps[n - 1]) && bs[n] == Do(bs[n - 1], steps[n - 1]);
    }
  }

  /** `c` stands at position `i` of the list of its type, and nowhere else. */
  ghost predicate ListedOnlyAt<C>(b: Bus<C>, c: C, i: nat)
    requires c in b.chans
  {
    var own := b.chans[c].typ;
    && i < |ListOf(b.subs, own)| && ListOf(b.subs, own)[i] == c
    && (forall t, j :: 0 <= j < |ListOf(b.subs, t)| && ListOf(b.subs, t)[j] == c ==> t == own && j == i)
  }

  /** No run panics; every channel ever made is either open and listed exactly
      once, under its own type, or closed and not listed. */
  lemma ChannelsAreSafe<C(!new)>(bs: seq<Bus<C>>, steps: seq<Step<C>>, n: nat, c: C)
    requires IsRun(bs, steps) && n < |bs| && c in bs[n].chans
    ensures !bs[n].panicked
    ensures if bs[n].chans[c].closed then !Listed(bs[n], c) else exists i :: ListedOnlyAt(bs[n], c, i)
  {
    OwnedHolds(bs, steps, n);
    var b := bs[n];
    if !b.chans[c].closed {
      var own := b.chans[c].typ;
      var list := ListOf(b.subs, own);
      assert c in b.subs[own];
      var i :| 0 <= i < |list| && list[i] == c;
      forall t, j | 0 <= j < |ListOf(b.subs, t)| && ListOf(b.subs, t)[j] == c ensures t == own && j == i {
        assert c in b.subs[t];
      }
      assert ListedOnlyAt(b, c, i);
    }
  }
}
