/** The event bus itself: subscriber lists in slices edited in place, channels
    that panic when sent to or closed after closing. */
module EventBuses {
  import opened Collections
  import opened BusSteps

  /** A buffered channel; `!closed` is what Go demands of a sender or closer. */
  class Channel {
    var buf: seq<Event>
    var closed: bool

    constructor ()
      ensures buf == [] && !closed
    {
      buf, closed := [], false;
    }

    /** A send in a `select` with a default case. */
    method TrySend(e: Event)
      requires !closed
      modifies this`buf
      ensures buf == old(buf) + (if |old(buf)| < 64 then [e] else [])
      ensures buf == Sent(old(buf), e)
    {
      if |buf| < BUFFER {
        buf := buf + [e];
      }
    }

    method Close()
      requires !closed
      modifies this`closed
      ensures closed
    {
      closed := true;
    }
  }

  /** A Go slice: the first `len` elements of a backing array. */
  datatype Slice = Slice(data: array<Channel?>, len: nat)

  /** `append(s, ch)`: in place while there is capacity. */
  method AppendChannel(s: Slice, ch: Channel) returns (r: Slice)
    requires s.len <= s.data.Length
    modifies s.data
    ensures r.len == s.len + 1 <= r.data.Length
    ensures r.data[..r.len] == old(s.data[..s.len]) + [ch]
    ensures r.data == s.data || fresh(r.data)
  {
    if s.len < s.data.Length {
      s.data[s.len] := ch;
      assert s.data[..s.len + 1] == s.data[..s.len] + [ch];
      return Slice(s.data, s.len + 1);
    }
    var bigger := new Channel?[2 * s.len + 1](_ => null);
    for i := 0 to s.len
      invariant bigger[..i] == s.data[..i] && s.data[..] == old(s.data[..])
    {
      bigger[i] := s.data[i];
    }
    bigger[s.len] := ch;
    assert bigger[..s.len] == s.data[..s.len];
    assert bigger[..s.len + 1] == bigger[..s.len] + [ch];
    r := Slice(bigger, s.len + 1);
  }

  /** `append(s[:i], s[i+1:]...)`: the tail is copied down inside the array. */
  method RemoveAt(s: Slice, i: nat) returns (r: Slice)
    requires i < s.len <= s.data.Length
    modifies s.data
    ensures r == Slice(s.data, s.len - 1)
    ensures s.data[..r.len] == old(s.data[..i] + s.data[i + 1..s.len])
  {
    for j := i to s.len - 1
      invariant s.data[..j] == old(s.data[..i] + s.data[i + 1..j + 1])
      invariant s.data[j + 1..] == old(s.data[j + 1..])
    {
      assert s.data[j + 1] == s.data[j + 1..][0];
      s.data[j] := s.data[j + 1];
    }
    r := Slice(s.data, s.len - 1);
  }

  /** The search loop of `Unsubscribe`: the first position of `ch`, if any. */
  method IndexOf(s: Slice, ch: Channel) returns (i: nat)
    requires s.len <= s.data.Length
    ensures i <= s.len && ch !in s.data[..i]
    ensures i < s.len ==> s.data[i] == ch
  {
    i := 0;
    while i < s.len
      invariant i <= s.len && ch !in s.data[..i]
    {
      if s.data[i] == ch {
        return;
      }
      i := i + 1;
    }
  }

  /** Send to each channel of a list without repeats. */
  method SendAll(list: seq<Channel>, e: Event)
    requires Distinct(list)
    requires forall c :: c in list ==> !c.closed
    modifies (set c | c in list)`buf
    ensures forall c :: c in list ==> c.buf == Sent(old(c.buf), e)
  {
    for i := 0 to |list|
      invariant forall k :: 0 <= k < i ==> list[k].buf == Sent(old(list[k].buf), e)
      invariant forall k :: i <= k < |list| ==> list[k].buf == old(list[k].buf)
    {
      list[i].TrySend(e);
    }
  }

  /** Close each channel of a list without repeats. */
  method CloseAll(list: seq<Channel>)
    requires Distinct(list)
    requires forall c :: c in list ==> !c.closed
    modifies (set c | c in list)`closed
    ensures forall c :: c in list ==> c.closed
  {
    for i := 0 to |list|
      invariant forall k :: 0 <= k < i ==> list[k].closed
      invariant forall k :: i <= k < |list| ==> !list[k].closed
    {
      list[i].Close();
    }
  }

  lemma {:induction false} RemoveFirstAt<C>(s: seq<C>, c: C, i: nat)
    requires i < |s| && s[i] == c && c !in s[..i]
    ensures RemoveFirst(s, c) == s[..i] + s[i + 1..]
  {
    if i == 0 {
      assert s[..0] + s[1..] == s[1..];
    } else {
      assert s[0] in s[..i];
      assert s[..i] == [s[0]] + s[1..][..i - 1];
      RemoveFirstAt(s[1..], c, i - 1);
      assert s[..i] + s[i + 1..] == [s[0]] + (s[1..][..i - 1] + s[1..][i..]);
    }
  }

  lemma {:induction false} RemoveFirstMissing<C>(s: seq<C>, c: C)
    requires c !in s
    ensures RemoveFirst(s, c) == s
  {
    if s != [] {
      RemoveFirstMissing(s[1..], c);
    }
  }

  /** `r` is `s` without the first occurrence of `c`, if there is one. */
  ghost predicate WithoutFirst<C>(s: seq<C>, c: C, r: seq<C>) {
    if c in s then exists i :: 0 <= i < |s| && s[i] == c && c !in s[..i] && r == s[..i] + s[i + 1..] else r == s
  }

  lemma RemoveFirstCuts<C>(s: seq<C>, c: C)
    ensures WithoutFirst(s, c, RemoveFirst(s, c))
  {
    if c in s {
      var i := FirstPosition(s, c);
      RemoveFirstAt(s, c, i);
    } else {
      RemoveFirstMissing(s, c);
    }
  }

  lemma {:induction false} FirstPosition<C>(s: seq<C>, c: C) returns (i: nat)
    requires c in s
    ensures i < |s| && s[i] == c && c !in s[..i]
  {
    i := 0;
    while s[i] != c
      invariant i < |s| && c !in s[..i] && c in s[i..]
      decreases |s| - i
    {
      i := i + 1;
    }
  }

  /** No channel stands twice, in one list or in two. */
  ghost predicate OnceEach<C>(lists: map<string, seq<C>>) {
    && (forall t :: t in lists ==> Distinct(lists[t]))
    && (forall t, u, c :: t in lists && u in lists && c in lists[t] && c in lists[u] ==> t == u)
  }

  lemma OnceEachWith<C>(lists: map<string, seq<C>>, typ: string, c: C)
    requires OnceEach(lists) && forall t :: t in lists ==> c !in lists[t]
    ensures OnceEach(SubsWith(lists, typ, c))
  {
  }

  lemma OnceEachWithout<C>(lists: map<string, seq<C>>, typ: string, c: C)
    requires OnceEach(lists)
    ensures OnceEach(SubsWithout(lists, typ, c))
    ensures forall t, x :: t in SubsWithout(lists, typ, c) && x in SubsWithout(lists, typ, c)[t] ==>
      t in lists && x in lists[t] && (t == typ ==> x != c)
  {
    var fewer, own := SubsWithout(lists, typ, c), ListOf(lists, typ);
    assert Distinct(own);
    RemoveFirstMembers(own, c, c);
    forall t, x | t in fewer && x in fewer[t] ensures t in lists && x in lists[t] && (t == typ ==> x != c) {
      RemoveFirstMembers(own, c, x);
    }
  }

  class InMemoryEventBus {
    var subscribers: map<string, Slice>
    var closed: bool
    ghost var lists: map<string, seq<Channel>>

    ghost function Arrays(): set<array<Channel?>>
      reads this
    {
      set t | t in subscribers :: subscribers[t].data
    }

    ghost function Listeners(): set<Channel>
      reads this
    {
      set t, c | t in lists && c in lists[t] :: c
    }

    /** The slice stored for `t` shows the list `lists[t]`. */
    ghost predicate Shows(t: string)
      requires t in subscribers && t in lists
      reads this, subscribers[t].data
    {
      var s := subscribers[t];
      0 < s.len <= s.data.Length && s.data[..s.len] == lists[t]
    }

    ghost predicate Valid()
      reads this, Arrays(), Listeners()
    {
      && lists.Keys == subscribers.Keys
      && (forall t :: t in subscribers ==> Shows(t))
      && (forall t, u :: t in subscribers && u in subscribers && t != u ==> subscribers[t].data != subscribers[u].data)
      && OnceEach(lists)
      && (forall t, c :: t in lists && c in lists[t] ==> !c.closed)
    }

    constructor ()
      ensures Valid() && !closed && lists == map[]
    {
      subscribers, closed, lists := map[], false, map[];
    }

    method Publish(e: Event) returns (ok: bool)
      requires Valid()
      modifies Listeners()`buf
      ensures ok <==> !closed
      ensures Valid()
      ensures forall c :: c in Listeners() ==>
        c.buf == if ok && c in ListOf(lists, e.typ) then Sent(old(c.buf), e) else old(c.buf)
    {
      if closed {
        return false;
      }
      if e.typ in subscribers {
        var subs := subscribers[e.typ];
        assert Shows(e.typ);
        SendAll(subs.data[..subs.len], e);
      }
      ok := true;
    }

    /** `b.subscribers[typ] = s`, where `s` shows the new list of `typ` and the
        other lists are as before. */
    method Store(typ: string, s: Slice, ghost list: seq<Channel>)
      requires lists.Keys == subscribers.Keys && OnceEach(lists[typ := list]) && |list| > 0
      requires s.len <= s.data.Length && s.data[..s.len] == list
      requires forall t :: t in subscribers && t != typ ==> Shows(t) && subscribers[t].data != s.data
      requires forall t, u ::
        t in subscribers && u in subscribers && t != u ==> subscribers[t].data != subscribers[u].data
      requires forall t, c :: t in lists && t != typ && c in lists[t] ==> !c.closed
      requires forall c :: c in list ==> !c.closed
      modifies this`subscribers, this`lists
      ensures Valid() && lists == old(lists)[typ := list]
    {
      subscribers := subscribers[typ := s];
      lists := lists[typ := list];
      forall t | t in subscribers ensures Shows(t) {
      }
    }

    /** The slice stored for `typ`, or an empty one. */
    method SliceOf(typ: string) returns (s: Slice)
      requires Valid()
      ensures s.len <= s.data.Length && s.data[..s.len] == ListOf(lists, typ)
      ensures if typ in subscribers then s == subscribers[typ] else fresh(s.data)
    {
      if typ in subscribers {
        assert Shows(typ);
        s := subscribers[typ];
      } else {
        var empty := new Channel?[0];
        s := Slice(empty, 0);
      }
    }

    method Subscribe(typ: string) returns (ch: Channel)
      requires Valid()
      modifies this`subscribers, this`lists, Arrays()
      ensures fresh(ch) && ch.buf == [] && !ch.closed
      ensures Valid() && lists == SubsWith(old(lists), typ, ch)
      ensures ListOf(lists, typ) == ListOf(old(lists), typ) + [ch]
      ensures forall t :: t != typ ==> ListOf(lists, t) == ListOf(old(lists), t)
    {
      ch := new Channel();
      OnceEachWith(lists, typ, ch);
      var slice := SliceOf(typ);
      var longer := AppendChannel(slice, ch);
      forall t | t in subscribers && t != typ ensures Shows(t) && subscribers[t].data != longer.data {
        assert old(Shows(t)) && subscribers[t].data != slice.data;
      }
      Store(typ, longer, ListOf(lists, typ) + [ch]);
    }

    /** `delete(b.subscribers, typ)`. */
    method Drop(typ: string)
      requires lists.Keys == subscribers.Keys && OnceEach(lists)
      requires forall t :: t in subscribers && t != typ ==> Shows(t)
      requires forall t, u ::
        t in subscribers && u in subscribers && t != u ==> subscribers[t].data != subscribers[u].data
      requires forall t, c :: t in lists && t != typ && c in lists[t] ==> !c.closed
      modifies this`subscribers, this`lists
      ensures Valid() && lists == old(lists) - {typ} && subscribers == old(subscribers) - {typ}
    {
      subscribers := subscribers - {typ};
      lists := lists - {typ};
      forall t | t in subscribers ensures Shows(t) {
      }
    }

    method Unsubscribe(typ: string, ch: Channel)
      requires Valid()
      modifies this`subscribers, this`lists, Arrays(), ch`closed
      ensures Valid() && lists == SubsWithout(old(lists), typ, ch)
      ensures ch.closed <==> old(ch.closed) || ch in ListOf(old(lists), typ)
      ensures WithoutFirst(ListOf(old(lists), typ), ch, ListOf(lists, typ))
      ensures forall t :: t != typ ==> ListOf(lists, t) == ListOf(old(lists), t)
    {
      RemoveFirstCuts(ListOf(lists, typ), ch);
      SubsWithoutLists(lists, typ, ch);
      if typ !in subscribers {
        assert lists - {typ} == lists;
        return;
      }
      assert Shows(typ);
      var subs := subscribers[typ];
      var i := IndexOf(subs, ch);
      if i < subs.len {
        Remove(typ, ch, i);
      } else {
        assert subs.data[..i] == lists[typ];
        RemoveFirstMissing(lists[typ], ch);
        assert lists == lists[typ := lists[typ]];
      }
    }

    /** The in-place removal leaves the other lists alone. */
    method ShiftOut(typ: string, i: nat) returns (shorter: Slice)
      requires Valid() && typ in subscribers && i < subscribers[typ].len <= subscribers[typ].data.Length
      modifies subscribers[typ].data
      ensures shorter.data == subscribers[typ].data && shorter.len <= shorter.data.Length
      ensures shorter.data[..shorter.len] == lists[typ][..i] + lists[typ][i + 1..]
      ensures forall t :: t in subscribers && t != typ ==> Shows(t)
    {
      assert Shows(typ);
      ghost var s := subscribers[typ];
      assert s.data[..i] == lists[typ][..i] && s.data[i + 1..s.len] == lists[typ][i + 1..];
      shorter := RemoveAt(subscribers[typ], i);
      forall t | t in subscribers && t != typ ensures Shows(t) {
        assert old(Shows(t));
      }
    }

    /** The channel was found at position `i`. */
    method Remove(typ: string, ch: Channel, i: nat)
      requires Valid() && typ in subscribers
      requires i < subscribers[typ].len <= subscribers[typ].data.Length
      requires subscribers[typ].data[i] == ch && ch !in subscribers[typ].data[..i]
      modifies this`subscribers, this`lists, Arrays(), ch`closed
      ensures Valid() && lists == SubsWithout(old(lists), typ, ch)
      ensures ch.closed && old(ch in ListOf(lists, typ))
    {
      hide RemoveFirst;
      assert Shows(typ);
      ghost var list := lists[typ];
      assert list[..i] == subscribers[typ].data[..i] && list[i] == ch;
      RemoveFirstAt(list, ch, i);
      OnceEachWithout(lists, typ, ch);
      var shorter := ShiftOut(typ, i);
      ch.Close();
      StoreOrDrop(typ, shorter, RemoveFirst(list, ch));
    }

    /** The list of `typ` becomes what `s` shows; an empty list is deleted. */
    method StoreOrDrop(typ: string, s: Slice, ghost list: seq<Channel>)
      requires lists.Keys == subscribers.Keys && OnceEach(lists)
      requires |list| > 0 ==> OnceEach(lists[typ := list])
      requires s.len <= s.data.Length && s.data[..s.len] == list
      requires forall t :: t in subscribers && t != typ ==> Shows(t) && subscribers[t].data != s.data
      requires forall t, u ::
        t in subscribers && u in subscribers && t != u ==> subscribers[t].data != subscribers[u].data
      requires forall t, c :: t in lists && t != typ && c in lists[t] ==> !c.closed
      requires forall c :: c in list ==> !c.closed
      modifies this`subscribers, this`lists
      ensures Valid() && lists == if list == [] then old(lists) - {typ} else old(lists)[typ := list]
    {
      if s.len == 0 {
        Drop(typ);
      } else {
        Store(typ, s, list);
      }
    }

    method Close()
      requires Valid()
      modifies this, Listeners()`closed
      ensures Valid() && closed && subscribers == map[] && lists == map[]
      ensures forall c :: c in old(Listeners()) ==> c.closed
    {
      while subscribers != map[]
        invariant Valid()
        invariant forall t :: t in lists ==> t in old(lists) && lists[t] == old(lists)[t]
        invariant forall t, c :: t in old(lists) && t !in lists && c in old(lists)[t] ==> c.closed
        decreases subscribers.Keys
      {
        var typ :| typ in subscribers;
        CloseList(typ);
      }
      closed := true;
    }

    /** One turn of the outer loop: close the list of `typ`, then delete it. */
    method CloseList(typ: string)
      requires Valid() && typ in subscribers
      modifies this`subscribers, this`lists, (set c | c in lists[typ])`closed
      ensures Valid() && lists == old(lists) - {typ} && subscribers == old(subscribers) - {typ}
      ensures forall c :: c in old(lists)[typ] ==> c.closed
    {
      assert Shows(typ);
      var subs := subscribers[typ];
      CloseAll(subs.data[..subs.len]);
      Drop(typ);
    }
  }
}
