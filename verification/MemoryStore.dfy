/** The in-memory memory provider: storage by identifier and filtered search. */
module MemoryStore {
  import opened Collections
  import opened Results

  /** A stored JSON document, as far as its string members are read back. */
  datatype Content = Fields(members: map<string, string>) | NotAnObject

  datatype Memory = Memory(
    id: string, typ: string, content: Content, tags: seq<string>, confidence: real, actorId: string,
    tenantId: string, metadata: map<string, string>, createdAt: int, accessedAt: int, expiresAt: int)

  const EPISODIC := "episodic"
  const SEMANTIC := "semantic"
  const OPERATIONAL := "operational"
  const WORKING := "working"

  /** `NewMemory`; the identifier and the clock reading come from outside. */
  function NewMemory(id: string, typ: string, content: Content, actorId: string, tenantId: string, now: int): Memory {
    Memory(id, typ, content, [], 1.0, actorId, tenantId, map[], now, now, 0)
  }

  /** Empty strings, the zero time 0 and a zero confidence mean "any". */
  datatype Query = Query(typ: string, tags: seq<string>, actorId: string, tenantId: string,
                         limit: int, since: int, minConfidence: real)

  predicate Matches(mem: Memory, q: Query) {
    && (q.typ == "" || mem.typ == q.typ)
    && (forall t :: t in q.tags ==> t in mem.tags)
    && (q.actorId == "" || mem.actorId == q.actorId)
    && (q.tenantId == "" || mem.tenantId == q.tenantId)
    && (q.since == 0 || mem.createdAt >= q.since)
    && (q.minConfidence <= 0.0 || mem.confidence >= q.minConfidence)
  }

  method ContainsAllTags(memoryTags: seq<string>, queryTags: seq<string>) returns (all: bool)
    ensures all <==> (forall t :: t in queryTags ==> t in memoryTags)
  {
    var tagSet: set<string> := {};
    for i := 0 to |memoryTags|
      invariant tagSet == set t | t in memoryTags[..i]
    {
      assert memoryTags[..i + 1] == memoryTags[..i] + [memoryTags[i]];
      tagSet := tagSet + {memoryTags[i]};
    }
    assert memoryTags[..|memoryTags|] == memoryTags;
    for i := 0 to |queryTags|
      invariant forall k :: 0 <= k < i ==> queryTags[k] in memoryTags
    {
      if queryTags[i] !in tagSet {
        return false;
      }
    }
    all := true;
  }

  method MatchesQuery(mem: Memory, q: Query) returns (b: bool)
    ensures b <==> Matches(mem, q)
    ensures !b <==>
      || (q.typ != "" && mem.typ != q.typ)
      || (exists t :: t in q.tags && t !in mem.tags)
      || (q.actorId != "" && mem.actorId != q.actorId)
      || (q.tenantId != "" && mem.tenantId != q.tenantId)
      || (q.since != 0 && mem.createdAt < q.since)
      || (q.minConfidence > 0.0 && mem.confidence < q.minConfidence)
  {
    if q.typ != "" && mem.typ != q.typ {
      return false;
    }
    if |q.tags| > 0 {
      var all := ContainsAllTags(mem.tags, q.tags);
      if !all {
        return false;
      }
    }
    if q.actorId != "" && mem.actorId != q.actorId {
      return false;
    }
    if q.tenantId != "" && mem.tenantId != q.tenantId {
      return false;
    }
    if q.since != 0 && mem.createdAt < q.since {
      return false;
    }
    if q.minConfidence > 0.0 && mem.confidence < q.minConfidence {
      return false;
    }
    b := true;
  }

  // ---- What a search must return ----

  type Store = map<string, Memory>

  ghost predicate WellKeyed(m: Store) {
    forall id :: id in m ==> m[id].id == id
  }

  ghost function MatchingIds(m: Store, q: Query): set<string> {
    set id | id in m && Matches(m[id], q)
  }

  function Limit(q: Query): nat {
    if q.limit <= 0 then 50 else q.limit
  }

  ghost predicate DistinctIds(r: seq<Memory>) {
    forall i, j :: 0 <= i < j < |r| ==> r[i].id != r[j].id
  }

  ghost predicate NewestFirst(r: seq<Memory>) {
    forall i, j :: 0 <= i < j < |r| ==> r[i].createdAt >= r[j].createdAt
  }

  ghost function IdsOf(r: seq<Memory>): set<string> {
    set i | 0 <= i < |r| :: r[i].id
  }

  /** Different stored memories that match. */
  ghost predicate AreMatches(m: Store, q: Query, r: seq<Memory>) {
    && DistinctIds(r)
    && (forall i :: 0 <= i < |r| ==> r[i].id in MatchingIds(m, q) && r[i] == m[r[i].id])
  }

  /** The newest matches, newest first, as many as the limit allows. */
  ghost predicate IsTopK(m: Store, q: Query, r: seq<Memory>) {
    && AreMatches(m, q, r)
    && |r| == (if |MatchingIds(m, q)| < Limit(q) then |MatchingIds(m, q)| else Limit(q))
    && NewestFirst(r)
    && (forall id, i ::
          id in MatchingIds(m, q) && id !in IdsOf(r) && 0 <= i < |r| ==> r[i].createdAt >= m[id].createdAt)
  }

  lemma {:induction false} DistinctSize(r: seq<Memory>)
    requires DistinctIds(r)
    ensures |IdsOf(r)| == |r|
  {
    if r != [] {
      var t, last := r[..|r| - 1], r[|r| - 1];
      DistinctSize(t);
      assert IdsOf(r) == IdsOf(t) + {last.id} by {
        assert forall i :: 0 <= i < |t| ==> t[i] == r[i];
      }
      assert last.id !in IdsOf(t);
    }
  }

  /** A search returns every match exactly when the limit has room for them all. */
  lemma TopKComplete(m: Store, q: Query, r: seq<Memory>)
    requires IsTopK(m, q, r)
    ensures IdsOf(r) == MatchingIds(m, q) <==> |MatchingIds(m, q)| <= Limit(q)
  {
    DistinctSize(r);
    if |MatchingIds(m, q)| <= Limit(q) {
      SameSizeSubset(IdsOf(r), MatchingIds(m, q));
    }
  }

  // ---- Sorting ----

  /** Any correct sort, newest first; nothing is promised about ties. */
  method SortNewestFirst(r: seq<Memory>) returns (s: seq<Memory>)
    ensures NewestFirst(s) && multiset(s) == multiset(r)
  {
    s := [];
    for i := 0 to |r|
      invariant NewestFirst(s) && multiset(s) == multiset(r[..i])
    {
      assert r[..i + 1] == r[..i] + [r[i]];
      s := InsertByTime(s, r[i]);
    }
    assert r[..|r|] == r;
  }

  method InsertByTime(s: seq<Memory>, x: Memory) returns (t: seq<Memory>)
    requires NewestFirst(s)
    ensures NewestFirst(t) && multiset(t) == multiset(s) + multiset{x}
  {
    var k := 0;
    while k < |s| && s[k].createdAt >= x.createdAt
      invariant 0 <= k <= |s| && forall i :: 0 <= i < k ==> s[i].createdAt >= x.createdAt
    {
      k := k + 1;
    }
    t := s[..k] + [x] + s[k..];
    InsertedOnce(s, k, x);
  }

  lemma InsertedOnce(s: seq<Memory>, k: nat, x: Memory)
    requires k <= |s|
    ensures multiset(s[..k] + [x] + s[k..]) == multiset(s) + multiset{x}
  {
    assert s == s[..k] + s[k..];
  }

  lemma {:induction false} CountIfDistinct(r: seq<Memory>, x: Memory)
    requires DistinctIds(r)
    ensures multiset(r)[x] <= 1
  {
    if r != [] {
      var t, last := r[..|r| - 1], r[|r| - 1];
      CountIfDistinct(t, x);
      assert r == t + [last];
      if x == last {
        assert x !in t;
      }
    }
  }

  lemma PermutationOfMatches(m: Store, q: Query, r: seq<Memory>, s: seq<Memory>)
    requires AreMatches(m, q, r) && multiset(s) == multiset(r)
    ensures AreMatches(m, q, s) && IdsOf(s) == IdsOf(r) && |s| == |r|
  {
    assert |multiset(s)| == |s| && |multiset(r)| == |r|;
    forall x ensures x in s <==> x in r {
      assert x in multiset(s) <==> x in multiset(r);
    }
    forall i, j | 0 <= i < j < |s| ensures s[i].id != s[j].id {
      assert s[i] in r && s[j] in r;
      if s[i].id == s[j].id {
        assert s[i] == s[j];
        RepeatCounted(s, i, j);
        CountIfDistinct(r, s[i]);
      }
    }
    forall i | 0 <= i < |s| ensures s[i].id in MatchingIds(m, q) && s[i] == m[s[i].id] {
      assert s[i] in r;
    }
    SameElementsSameIds(s, r);
  }

  lemma SameElementsSameIds(s: seq<Memory>, r: seq<Memory>)
    requires forall x :: x in s <==> x in r
    ensures IdsOf(s) == IdsOf(r)
  {
    forall id ensures id in IdsOf(s) <==> id in IdsOf(r) {
      if id in IdsOf(s) {
        var i :| 0 <= i < |s| && s[i].id == id;
        assert s[i] in r;
      }
      if id in IdsOf(r) {
        var i :| 0 <= i < |r| && r[i].id == id;
        assert r[i] in s;
      }
    }
  }

  lemma RepeatCounted(s: seq<Memory>, i: nat, j: nat)
    requires i < j < |s| && s[i] == s[j]
    ensures multiset(s)[s[i]] >= 2
  {
    assert s == s[..j] + ([s[j]] + s[j + 1..]);
    assert s[..j][i] == s[i];
  }

  /** All matches, sorted and cut to the limit, are the top matches. */
  lemma CutIsTopK(m: Store, q: Query, all: seq<Memory>, r: seq<Memory>)
    requires AreMatches(m, q, all) && IdsOf(all) == MatchingIds(m, q) && NewestFirst(all)
    requires r == if |all| > Limit(q) then all[..Limit(q)] else all
    ensures IsTopK(m, q, r)
  {
    DistinctSize(all);
    forall id, i | id in MatchingIds(m, q) && id !in IdsOf(r) && 0 <= i < |r|
      ensures r[i].createdAt >= m[id].createdAt
    {
      var k :| 0 <= k < |all| && all[k].id == id;
      assert forall j :: 0 <= j < |r| ==> r[j] == all[j];
      assert r[i] == all[i];
    }
  }

  datatype StoreError = MemoryExists(id: string) | MemoryNotFound(id: string)

  class Provider {
    var memories: Store

    ghost predicate Valid()
      reads this
    {
      WellKeyed(memories)
    }

    constructor ()
      ensures Valid() && memories == map[]
    {
      memories := map[];
    }

    method Write(mem: Memory) returns (r: Outcome<StoreError>)
      modifies this
      ensures r == if mem.id in old(memories) then Fail(MemoryExists(mem.id)) else Pass
      ensures memories == if r.Pass? then old(memories)[mem.id := mem] else old(memories)
      ensures old(Valid()) ==> Valid()
    {
      if mem.id in memories {
        return Fail(MemoryExists(mem.id));
      }
      memories := memories[mem.id := mem];
      r := Pass;
    }

    method Read(id: string, now: int) returns (r: Result<Memory, StoreError>)
      modifies this
      ensures id !in old(memories) ==> r == Err(MemoryNotFound(id)) && memories == old(memories)
      ensures id in old(memories) ==>
        r == Ok(old(memories)[id].(accessedAt := now)) && memories == old(memories)[id := r.value]
      ensures old(Valid()) ==> Valid()
    {
      if id !in memories {
        return Err(MemoryNotFound(id));
      }
      memories := memories[id := memories[id].(accessedAt := now)];
      r := Ok(memories[id]);
    }

    method Delete(id: string) returns (r: Outcome<StoreError>)
      modifies this
      ensures r == if id in old(memories) then Pass else Fail(MemoryNotFound(id))
      ensures memories == old(memories) - {id}
      ensures old(Valid()) ==> Valid()
    {
      if id !in memories {
        assert memories - {id} == memories;
        return Fail(MemoryNotFound(id));
      }
      memories := memories - {id};
      r := Pass;
    }

    method Search(q: Query) returns (r: seq<Memory>)
      requires Valid()
      ensures IsTopK(memories, q, r)
      ensures forall i :: 0 <= i < |r| ==>
        && r[i] in memories.Values
        && (q.typ != "" ==> r[i].typ == q.typ)
        && (q.actorId != "" ==> r[i].actorId == q.actorId)
        && (q.tenantId != "" ==> r[i].tenantId == q.tenantId)
        && (q.since != 0 ==> r[i].createdAt >= q.since)
        && (q.minConfidence > 0.0 ==> r[i].confidence >= q.minConfidence)
      ensures var most := if q.limit <= 0 then 50 else q.limit;
        |r| == if |MatchingIds(memories, q)| < most then |MatchingIds(memories, q)| else most
    {
      var results := Collect(q);
      var sorted := SortNewestFirst(results);
      PermutationOfMatches(memories, q, results, sorted);
      r := if |sorted| > Limit(q) then sorted[..Limit(q)] else sorted;
      CutIsTopK(memories, q, sorted, r);
    }

    /** The filtering loop; a map is visited in any order. */
    method Collect(q: Query) returns (results: seq<Memory>)
      requires Valid()
      ensures AreMatches(memories, q, results) && IdsOf(results) == MatchingIds(memories, q)
    {
      results := [];
      var todo := memories.Keys;
      while todo != {}
        invariant todo <= memories.Keys
        invariant AreMatches(memories, q, results)
        invariant IdsOf(results) == MatchingIds(memories, q) - todo
        decreases todo
      {
        var id :| id in todo;
        todo := todo - {id};
        var matched := MatchesQuery(memories[id], q);
        if matched {
          assert id !in IdsOf(results);
          IdsSnoc(results, memories[id]);
          results := results + [memories[id]];
        }
      }
    }
  }

  lemma IdsSnoc(r: seq<Memory>, x: Memory)
    ensures IdsOf(r + [x]) == IdsOf(r) + {x.id}
  {
    forall id | id in IdsOf(r) ensures id in IdsOf(r + [x]) {
      var i :| 0 <= i < |r| && r[i].id == id;
      assert (r + [x])[i].id == id;
    }
    assert (r + [x])[|r|].id == x.id;
  }
}
