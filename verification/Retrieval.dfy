/** Questions against an ingested sample: one search, reused for every question,
    and the dialog identifiers read back from what it found. */
module Retrieval {
  import opened Collections
  import opened Results
  import opened MemoryStore
  import opened Scoring
  import opened Locomo

  // ---- Reading the dialog identifier of a memory ----

  /** Metadata first, then the index, then the content; otherwise none. */
  function DiaIdOf(mem: Memory, memToDia: map<string, string>): Option<string> {
    if "dia_id" in mem.metadata && mem.metadata["dia_id"] != "" then Some(mem.metadata["dia_id"])
    else if mem.id in memToDia then Some(memToDia[mem.id])
    else if mem.content.Fields? && "dia_id" in mem.content.members && mem.content.members["dia_id"] != "" then
      Some(mem.content.members["dia_id"])
    else None
  }

  function Named(members: map<string, string>): string {
    if "dia_id" in members then members["dia_id"] else ""
  }

  /** What wins, and when there is no identifier. */
  lemma WhichDiaIdWins(mem: Memory, memToDia: map<string, string>)
    ensures var r := DiaIdOf(mem, memToDia);
      var inContent := if mem.content.Fields? then Named(mem.content.members) else "";
      && (Named(mem.metadata) != "" ==> r == Some(Named(mem.metadata)))
      && (Named(mem.metadata) == "" && mem.id in memToDia ==> r == Some(memToDia[mem.id]))
      && (Named(mem.metadata) == "" && mem.id !in memToDia && inContent != "" ==> r == Some(inContent))
      && (r.None? <==> Named(mem.metadata) == inContent == "" && mem.id !in memToDia)
  {
  }

  function DiaIdsOf(memories: seq<Memory>, memToDia: map<string, string>): seq<string> {
    if memories == [] then []
    else
      var last := DiaIdOf(memories[|memories| - 1], memToDia);
      DiaIdsOf(memories[..|memories| - 1], memToDia) + (if last.Some? then [last.value] else [])
  }

  method ExtractDiaIds(memories: seq<Memory>, memToDia: map<string, string>) returns (ids: seq<string>)
    ensures ids == DiaIdsOf(memories, memToDia)
  {
    ids := [];
    for i := 0 to |memories|
      invariant ids == DiaIdsOf(memories[..i], memToDia)
    {
      var mem := memories[i];
      assert memories[..i + 1][..i] == memories[..i];
      if "dia_id" in mem.metadata && mem.metadata["dia_id"] != "" {
        ids := ids + [mem.metadata["dia_id"]];
        continue;
      }
      if mem.id in memToDia {
        ids := ids + [memToDia[mem.id]];
        continue;
      }
      if mem.content.Fields? && "dia_id" in mem.content.members && mem.content.members["dia_id"] != "" {
        ids := ids + [mem.content.members["dia_id"]];
      }
    }
    assert memories[..|memories|] == memories;
  }

  /** When no memory is skipped, the list has one entry per memory, in order. */
  lemma {:induction false} NoneSkipped(memories: seq<Memory>, memToDia: map<string, string>)
    requires forall i :: 0 <= i < |memories| ==> DiaIdOf(memories[i], memToDia).Some?
    ensures |DiaIdsOf(memories, memToDia)| == |memories|
    ensures forall i :: 0 <= i < |memories| ==>
      DiaIdsOf(memories, memToDia)[i] == DiaIdOf(memories[i], memToDia).value
  {
    if memories != [] {
      NoneSkipped(memories[..|memories| - 1], memToDia);
    }
  }

  // ---- The questions ----

  function BasicQuery(sampleId: string): Query {
    Query(EPISODIC, [], "", sampleId, 10000, 0, 0.0)
  }

  /** Whatever a store holds, the search finds memories of the sample only. */
  lemma BasicSearchStaysInSample(m: Store, sampleId: string, found: seq<Memory>, i: nat)
    requires IsTopK(m, BasicQuery(sampleId), found) && sampleId != "" && i < |found|
    ensures found[i].tenantId == sampleId && found[i].typ == "episodic" && |found| <= 10000
  {
    assert found[i].id in MatchingIds(m, BasicQuery(sampleId));
  }

  /** Every question is answered by the identifiers read from what was found. */
  ghost predicate AllAnsweredBy(results: seq<QueryResult>, qa: seq<QAItem>, ids: seq<string>) {
    |results| == |qa| && forall i :: 0 <= i < |qa| ==> results[i] == QueryResult(qa[i], ids)
  }

  method ExecuteQueries(sample: IngestedSample, qa: seq<QAItem>) returns (results: seq<QueryResult>)
    requires sample.provider.Valid()
    ensures exists found ::
      && IsTopK(sample.provider.memories, BasicQuery(sample.sampleId), found)
      && AllAnsweredBy(results, qa, DiaIdsOf(found, sample.memToDiaId))
  {
    var memories := sample.provider.Search(BasicQuery(sample.sampleId));
    var retrieved := ExtractDiaIds(memories, sample.memToDiaId);
    results := [];
    for i := 0 to |qa|
      invariant |results| == i && forall k :: 0 <= k < i ==> results[k] == QueryResult(qa[k], retrieved)
    {
      results := results + [QueryResult(qa[i], retrieved)];
    }
  }

  // ---- What is retrieved ----

  /** The n-th memory carries the dialog identifier of the n-th turn. */
  ghost predicate CarryDiaIds(mems: seq<Memory>, turns: seq<TurnAt>) {
    |mems| == |turns|
    && forall n :: 0 <= n < |mems| ==>
      "dia_id" in mems[n].metadata && mems[n].metadata["dia_id"] == turns[n].turn.diaId
  }

  lemma {:induction false} DiaIndexAt(mems: seq<Memory>, turns: seq<TurnAt>, n: nat, i: nat)
    requires DistinctIds(mems) && i < n <= |mems| == |turns|
    ensures mems[i].id in DiaIndex(mems, turns, n) && DiaIndex(mems, turns, n)[mems[i].id] == turns[i].turn.diaId
  {
    if i < n - 1 {
      DiaIndexAt(mems, turns, n - 1, i);
    }
  }

  /** Even an empty dialog identifier is read back, through the index. */
  lemma DiaIdIsReadBack(mems: seq<Memory>, turns: seq<TurnAt>, n: nat)
    requires DistinctIds(mems) && CarryDiaIds(mems, turns) && n < |mems|
    ensures DiaIdOf(mems[n], DiaIndex(mems, turns, |mems|)) == Some(turns[n].turn.diaId)
  {
    DiaIndexAt(mems, turns, |mems|, n);
  }

  lemma FoundIsStored(mems: seq<Memory>, q: Query, found: seq<Memory>, i: nat) returns (n: nat)
    requires AreMatches(Stored(mems, |mems|), q, found) && i < |found|
    ensures n < |mems| && mems[n] == found[i] && Matches(mems[n], q)
  {
    StoredKeys(mems, |mems|, found[i].id);
    n :| 0 <= n < |mems| && mems[n] == found[i];
  }

  lemma MatchesFit(mems: seq<Memory>, q: Query)
    requires DistinctIds(mems)
    ensures |MatchingIds(Stored(mems, |mems|), q)| <= |mems|
  {
    DistinctSize(mems);
    forall id | id in MatchingIds(Stored(mems, |mems|), q) ensures id in IdsOf(mems) {
      StoredKeys(mems, |mems|, id);
    }
    SubsetSize(MatchingIds(Stored(mems, |mems|), q), IdsOf(mems));
  }

  lemma MatchIsFound(mems: seq<Memory>, q: Query, found: seq<Memory>, n: nat) returns (i: nat)
    requires DistinctIds(mems) && IsTopK(Stored(mems, |mems|), q, found) && |mems| <= Limit(q)
    requires n < |mems| && Matches(mems[n], q)
    ensures i < |found| && found[i] == mems[n]
  {
    MatchesFit(mems, q);
    TopKComplete(Stored(mems, |mems|), q, found);
    StoredAt(mems, |mems|, n);
    assert mems[n].id in IdsOf(found);
    i :| 0 <= i < |found| && found[i].id == mems[n].id;
  }

  ghost function MatchingDiaIds(mems: seq<Memory>, turns: seq<TurnAt>, q: Query): set<string>
    requires |mems| == |turns|
  {
    set n | 0 <= n < |mems| && Matches(mems[n], q) :: turns[n].turn.diaId
  }

  lemma FoundReadsBack(mems: seq<Memory>, turns: seq<TurnAt>, q: Query, found: seq<Memory>, i: nat) returns (n: nat)
    requires DistinctIds(mems) && CarryDiaIds(mems, turns) && AreMatches(Stored(mems, |mems|), q, found) && i < |found|
    ensures n < |mems| && mems[n] == found[i] && Matches(mems[n], q)
    ensures DiaIdOf(found[i], DiaIndex(mems, turns, |mems|)) == Some(turns[n].turn.diaId)
  {
    n := FoundIsStored(mems, q, found, i);
    DiaIdIsReadBack(mems, turns, n);
  }

  /** A search with room for all turns retrieves exactly the dialog identifiers
      of the turns whose memory matches, one entry for each such turn. */
  lemma RetrievalIsExact(mems: seq<Memory>, turns: seq<TurnAt>, q: Query, found: seq<Memory>)
    requires DistinctIds(mems) && CarryDiaIds(mems, turns)
    requires IsTopK(Stored(mems, |mems|), q, found) && |mems| <= Limit(q)
    ensures var ids := DiaIdsOf(found, DiaIndex(mems, turns, |mems|));
      |ids| == |found| && ElementsOf(ids) == MatchingDiaIds(mems, turns, q)
  {
    var memToDia := DiaIndex(mems, turns, |mems|);
    var ids := DiaIdsOf(found, memToDia);
    forall i | 0 <= i < |found|
      ensures DiaIdOf(found[i], memToDia).Some?
      ensures DiaIdOf(found[i], memToDia).value in MatchingDiaIds(mems, turns, q)
    {
      var n := FoundReadsBack(mems, turns, q, found, i);
    }
    NoneSkipped(found, memToDia);
    forall id | id in MatchingDiaIds(mems, turns, q) ensures id in ids {
      var n :| 0 <= n < |mems| && Matches(mems[n], q) && turns[n].turn.diaId == id;
      var i := MatchIsFound(mems, q, found, n);
      DiaIdIsReadBack(mems, turns, n);
      assert ids[i] == id;
    }
  }

  // ---- The basic strategy, end to end ----

  /** The dialog identifiers of a sample. */
  ghost function DialogIds(sample: Sample): set<string> {
    set s, i | 0 <= s < |sample.sessions| && 0 <= i < |sample.sessions[s].turns| :: sample.sessions[s].turns[i].diaId
  }

  ghost function TurnIds(turns: seq<TurnAt>): set<string> {
    set n | 0 <= n < |turns| :: turns[n].turn.diaId
  }

  lemma DialogIdsAreTurnIds(sample: Sample)
    ensures TurnIds(TurnsOf(sample.sessions)) == DialogIds(sample)
  {
    var turns := TurnsOf(sample.sessions);
    forall n | 0 <= n < |turns| ensures turns[n].turn.diaId in DialogIds(sample) {
      TurnsAreFromSessions(sample.sessions, n);
    }
    forall s, i | 0 <= s < |sample.sessions| && 0 <= i < |sample.sessions[s].turns|
      ensures sample.sessions[s].turns[i].diaId in TurnIds(turns)
    {
      TurnAtIndex(sample.sessions, s, i);
      assert turns[|TurnsOf(sample.sessions[..s])| + i].turn.diaId in TurnIds(turns);
    }
  }

  /** A result of the search over what the basic strategy ingests. */
  ghost predicate FoundByBasic(sample: Sample, env: Environment, found: seq<Memory>) {
    var mems := BasicMemories(sample, env);
    IsTopK(Stored(mems, |mems|), BasicQuery(sample.sampleId), found)
  }

  ghost function IndexOfBasic(sample: Sample, env: Environment): map<string, string> {
    var mems := BasicMemories(sample, env);
    DiaIndex(mems, TurnsOf(sample.sessions), |mems|)
  }

  /** With at most 10000 turns, every question is answered with exactly the
      dialog identifiers of the sample. */
  lemma BasicRetrievesEveryTurn(sample: Sample, env: Environment, found: seq<Memory>)
    requires FreshIds(env, |TurnsOf(sample.sessions)|) && |TurnsOf(sample.sessions)| <= 10000
    requires FoundByBasic(sample, env, found)
    ensures ElementsOf(DiaIdsOf(found, IndexOfBasic(sample, env))) == DialogIds(sample)
  {
    BasicIdsAreFresh(sample, env);
    RetrievalIsExact(BasicMemories(sample, env), TurnsOf(sample.sessions), BasicQuery(sample.sampleId), found);
    DialogIdsAreTurnIds(sample);
  }

  /** When the turns have different dialog identifiers, exactly those are retrieved
      if and only if there are at most 10000 turns. */
  lemma BasicRetrievesEveryTurnIff(sample: Sample, env: Environment, found: seq<Memory>)
    requires FreshIds(env, |TurnsOf(sample.sessions)|) && FoundByBasic(sample, env, found)
    requires |DialogIds(sample)| == |TurnsOf(sample.sessions)|
    ensures ElementsOf(DiaIdsOf(found, IndexOfBasic(sample, env))) == DialogIds(sample)
       <==> |TurnsOf(sample.sessions)| <= 10000
  {
    if |TurnsOf(sample.sessions)| <= 10000 {
      BasicRetrievesEveryTurn(sample, env, found);
    } else {
      NoMoreIdsThanMemories(found, IndexOfBasic(sample, env));
      NoMoreElements(DiaIdsOf(found, IndexOfBasic(sample, env)));
    }
  }

  lemma {:induction false} NoMoreIdsThanMemories(found: seq<Memory>, index: map<string, string>)
    ensures |DiaIdsOf(found, index)| <= |found|
  {
    if found != [] {
      NoMoreIdsThanMemories(found[..|found| - 1], index);
    }
  }

  lemma {:induction false} NoMoreElements(ids: seq<string>)
    ensures |ElementsOf(ids)| <= |ids|
  {
    if ids != [] {
      var init, last := ids[..|ids| - 1], ids[|ids| - 1];
      NoMoreElements(init);
      assert ids == init + [last];
      assert ElementsOf(ids) == ElementsOf(init) + {last};
    }
  }

  /** Turns of one session come back newest first, so in decreasing index order. */
  lemma SessionTurnsComeBackReversed(sample: Sample, env: Environment, found: seq<Memory>,
                                     i: nat, j: nat, m: nat, n: nat)
    requires FoundByBasic(sample, env, found) && i < j < |found|
    requires m < |TurnsOf(sample.sessions)| && n < |TurnsOf(sample.sessions)|
    requires found[i] == BasicMemories(sample, env)[m] && found[j] == BasicMemories(sample, env)[n]
    requires TurnsOf(sample.sessions)[m].session == TurnsOf(sample.sessions)[n].session
    ensures TurnsOf(sample.sessions)[m].index > TurnsOf(sample.sessions)[n].index
  {
    var turns := TurnsOf(sample.sessions);
    TurnsAreFromSessions(sample.sessions, m);
    TurnsAreFromSessions(sample.sessions, n);
    assert found[i].createdAt >= found[j].createdAt;
    assert found[i].id != found[j].id;
    assert turns[m].index == turns[n].index ==> m == n;
  }

  /** With the whole sample D retrieved and evidence E in it: recall is 1,
      precision |E|/|D| and F1 2|E|/(|E|+|D|). */
  lemma ScoreOfFullRetrieval(retrieved: set<string>, evidence: set<string>)
    requires evidence != {} && evidence <= retrieved
    ensures var d, e := |retrieved| as real, |evidence| as real;
      Score(retrieved, evidence) == Metrics(e / d, 1.0, 2.0 * e / (e + d))
  {
    assert retrieved * evidence == evidence;
    F1Formula(retrieved, evidence);
    DivideProduct(|evidence| as real, |evidence| as real, 1.0);
  }

  /** Ingest, search, extract and score a sample with the basic strategy. */
  method RunBasic(sample: Sample, env: Environment, qa: seq<QAItem>)
    returns (r: Result<seq<QuestionScore>, StoreError>)
    ensures r.Ok? <==> FreshIds(env, |TurnsOf(sample.sessions)|)
    ensures r.Ok? ==> |r.value| == |qa|
    ensures r.Ok? && |TurnsOf(sample.sessions)| <= 10000 ==>
      forall i :: 0 <= i < |qa| ==> ScoredAgainst(DialogIds(sample), qa[i], r.value[i])
  {
    var outcome := Ingest(sample, env);
    if outcome.Err? {
      return Err(outcome.error);
    }
    var ingested := outcome.value;
    ghost var mems, turns := BasicMemories(sample, env), TurnsOf(sample.sessions);
    forall id | id in ingested.provider.memories ensures ingested.provider.memories[id].id == id {
      StoredKeys(mems, |mems|, id);
    }
    var results := ExecuteQueries(ingested, qa);
    ghost var found :| IsTopK(ingested.provider.memories, BasicQuery(ingested.sampleId), found)
      && AllAnsweredBy(results, qa, DiaIdsOf(found, ingested.memToDiaId));
    if |turns| <= 10000 {
      BasicRetrievesEveryTurn(sample, env, found);
    }
    var scores := ScoreAll(results);
    r := Ok(scores);
  }

  method ScoreAll(results: seq<QueryResult>) returns (scores: seq<QuestionScore>)
    ensures |scores| == |results|
    ensures forall i :: 0 <= i < |results| ==>
      ScoredAgainst(ElementsOf(results[i].retrievedIds), results[i].qa, scores[i])
  {
    scores := [];
    for i := 0 to |results|
      invariant |scores| == i
      invariant forall k :: 0 <= k < i ==> ScoredAgainst(ElementsOf(results[k].retrievedIds), results[k].qa, scores[k])
    {
      var score := ScoreQuestion(results[i]);
      scores := scores + [score];
    }
  }

  /** The question was scored on retrieving exactly `d`. */
  ghost predicate ScoredAgainst(d: set<string>, question: QAItem, score: QuestionScore) {
    && score.question == question.question && score.category == question.category
    && score.retrieved == |d| && score.evidence == |ElementsOf(question.evidence)|
    && score.metrics == Score(d, ElementsOf(question.evidence))
  }
}
