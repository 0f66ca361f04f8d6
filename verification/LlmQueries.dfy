/** Questions asked with one planned search each. */
module LlmQueries {
  import opened Collections
  import opened Results
  import opened MemoryStore
  import opened Scoring
  import opened Locomo
  import opened Retrieval
  import opened LlmIngest

  datatype SmartQuery = SmartQuery(memoryType: string, tags: seq<string>, minConfidence: real)

  /** A failed plan becomes a broad search. */
  function PlanOrBroad(plan: Option<SmartQuery>): SmartQuery {
    if plan.Some? then plan.value else SmartQuery("", [], 0.2)
  }

  function SearchFor(sampleId: string, smart: SmartQuery, normalise: string -> string): Query {
    Query(if smart.memoryType != "" then ParseMemoryType(normalise(smart.memoryType)) else "",
          smart.tags, "", sampleId, 10000, 0, smart.minConfidence)
  }

  /** The questions among the first `n` whose plan failed. */
  ghost function FailedPlans(plans: nat -> Option<SmartQuery>, n: nat): set<nat> {
    set i: nat | i < n && plans(i).None?
  }

  lemma OneMorePlan(plans: nat -> Option<SmartQuery>, n: nat)
    ensures |FailedPlans(plans, n + 1)| == |FailedPlans(plans, n)| + OneIf(plans(n).None?)
  {
    assert FailedPlans(plans, n + 1) == FailedPlans(plans, n) + (if plans(n).None? then {n} else {});
  }

  /** The question is answered by what the planned search found. */
  ghost predicate Answers(memories: Store, memToDia: map<string, string>, q: Query, question: QAItem,
                          result: QueryResult, found: seq<Memory>)
  {
    IsTopK(memories, q, found) && result == QueryResult(question, DiaIdsOf(found, memToDia))
  }

  /** So is each of the questions that have a result. */
  ghost predicate AllAnswered(memories: Store, memToDia: map<string, string>, searches: seq<Query>, qa: seq<QAItem>,
                              results: seq<QueryResult>, found: seq<seq<Memory>>)
  {
    && |results| == |found| <= |qa| == |searches|
    && forall i :: 0 <= i < |results| ==> Answers(memories, memToDia, searches[i], qa[i], results[i], found[i])
  }

  lemma OneMoreAnswered(memories: Store, memToDia: map<string, string>, searches: seq<Query>, qa: seq<QAItem>,
                        results: seq<QueryResult>, found: seq<seq<Memory>>, result: QueryResult, matches: seq<Memory>)
    requires AllAnswered(memories, memToDia, searches, qa, results, found) && |results| < |qa|
    requires Answers(memories, memToDia, searches[|results|], qa[|results|], result, matches)
    ensures AllAnswered(memories, memToDia, searches, qa, results + [result], found + [matches])
  {
  }

  /** The searches that a list of plans asks for. */
  function Searches(sampleId: string, plans: nat -> Option<SmartQuery>, normalise: string -> string, n: nat): seq<Query>
  {
    seq(n, i requires 0 <= i < n => SearchFor(sampleId, PlanOrBroad(plans(i)), normalise))
  }

  class LlmStrategy {
    var planFallbacks: nat

    constructor ()
      ensures planFallbacks == 0
    {
      planFallbacks := 0;
    }

    /** Each question is answered by its own search, or by the broad one. */
    method Query(ingested: IngestedSample, qa: seq<QAItem>, plans: nat -> Option<SmartQuery>,
                 normalise: string -> string)
      returns (results: seq<QueryResult>, ghost found: seq<seq<Memory>>)
      requires ingested.provider.Valid()
      modifies this
      ensures planFallbacks == old(planFallbacks) + |set i: nat | i < |qa| && plans(i).None?|
      ensures |results| == |qa|
      ensures AllAnswered(ingested.provider.memories, ingested.memToDiaId,
                          Searches(ingested.sampleId, plans, normalise, |qa|), qa, results, found)
    {
      results, found := [], [];
      assert FailedPlans(plans, 0) == {};
      ghost var memories, index := ingested.provider.memories, ingested.memToDiaId;
      ghost var searches := Searches(ingested.sampleId, plans, normalise, |qa|);
      for i := 0 to |qa|
        invariant planFallbacks == old(planFallbacks) + |FailedPlans(plans, i)|
        invariant |results| == i && AllAnswered(memories, index, searches, qa, results, found)
      {
        var plan := plans(i);
        OneMorePlan(plans, i);
        if plan.None? {
          planFallbacks := planFallbacks + 1;
        }
        var result, matches := Ask(ingested, SearchFor(ingested.sampleId, PlanOrBroad(plan), normalise), qa[i]);
        OneMoreAnswered(memories, index, searches, qa, results, found, result, matches);
        results := results + [result];
        found := found + [matches];
      }
    }
  }

  method Ask(ingested: IngestedSample, q: Query, question: QAItem)
    returns (result: QueryResult, ghost found: seq<Memory>)
    requires ingested.provider.Valid()
    ensures Answers(ingested.provider.memories, ingested.memToDiaId, q, question, result, found)
  {
    var memories := ingested.provider.Search(q);
    found := memories;
    var retrieved := ExtractDiaIds(memories, ingested.memToDiaId);
    result := QueryResult(question, retrieved);
  }

  // ---- What a planned search retrieves ----

  /** Whatever a store holds, a search finds memories of the sample only, of the
      type, with the tags and of the confidence that the plan names. */
  lemma PlannedSearchStaysInSample(m: Store, sampleId: string, smart: SmartQuery, normalise: string -> string,
                                   found: seq<Memory>, i: nat)
    requires IsTopK(m, SearchFor(sampleId, smart, normalise), found) && sampleId != "" && i < |found|
    ensures found[i].tenantId == sampleId && |found| <= 10000
    ensures smart.memoryType != "" ==> found[i].typ == ParseMemoryType(normalise(smart.memoryType))
    ensures forall t :: t in smart.tags ==> t in found[i].tags
    ensures smart.minConfidence > 0.0 ==> found[i].confidence >= smart.minConfidence
  {
    assert found[i].id in MatchingIds(m, SearchFor(sampleId, smart, normalise));
    KnownTypeIsNotEmpty(normalise(smart.memoryType));
  }

  /** The plan asks for turns classified like this one. */
  predicate Wanted(smart: SmartQuery, tag: string, cls: Classification, normalise: string -> string) {
    && (smart.memoryType == ""
        || ParseMemoryType(normalise(cls.memoryType)) == ParseMemoryType(normalise(smart.memoryType)))
    && (forall t :: t in smart.tags ==> t == tag || t in cls.tags)
    && (smart.minConfidence <= 0.0 || ClampConfidence(cls.confidence) >= smart.minConfidence)
  }

  predicate WantedAt(smart: SmartQuery, sample: Sample, env: LlmEnvironment, at: TurnAt) {
    InSample(sample, at)
    && Wanted(smart, SessionTag(env.base, sample.sessions[at.session].index), ClassAt(sample, env, at), env.normalise)
  }

  lemma MatchesIffWanted(sample: Sample, env: LlmEnvironment, smart: SmartQuery, at: TurnAt, n: nat)
    requires InSample(sample, at)
    ensures Matches(ClassifiedMemory(sample, env, at, n, ClassAt(sample, env, at)),
                    SearchFor(sample.sampleId, smart, env.normalise))
       <==> WantedAt(smart, sample, env, at)
  {
    KnownTypeIsNotEmpty(env.normalise(smart.memoryType));
    var cls := ClassAt(sample, env, at);
    var tag := SessionTag(env.base, sample.sessions[at.session].index);
    forall t ensures t in [tag] + cls.tags <==> t == tag || t in cls.tags {
    }
  }

  lemma KnownTypeIsNotEmpty(normalised: string)
    ensures ParseMemoryType(normalised) in MEMORY_TYPES
    ensures ParseMemoryType(normalised) != ""
  {
  }

  /** The dialog identifiers of the wanted turns. */
  ghost function WantedDialogIds(smart: SmartQuery, sample: Sample, env: LlmEnvironment): set<string> {
    set n | 0 <= n < |TurnsOf(sample.sessions)| && WantedAt(smart, sample, env, TurnsOf(sample.sessions)[n]) ::
      TurnsOf(sample.sessions)[n].turn.diaId
  }

  ghost predicate FoundByPlan(sample: Sample, env: LlmEnvironment, smart: SmartQuery, found: seq<Memory>) {
    var mems := LlmMemories(sample, env);
    IsTopK(Stored(mems, |mems|), SearchFor(sample.sampleId, smart, env.normalise), found)
  }

  ghost function IndexOfLlm(sample: Sample, env: LlmEnvironment): map<string, string> {
    var mems := LlmMemories(sample, env);
    DiaIndex(mems, TurnsOf(sample.sessions), |mems|)
  }

  /** With at most 10000 turns a planned search retrieves exactly the dialog
      identifiers of the turns whose classification the plan asks for. */
  lemma PlanRetrievesWantedTurns(sample: Sample, env: LlmEnvironment, smart: SmartQuery, found: seq<Memory>)
    requires FreshIds(env.base, |TurnsOf(sample.sessions)|) && |TurnsOf(sample.sessions)| <= 10000
    requires FoundByPlan(sample, env, smart, found)
    ensures ElementsOf(DiaIdsOf(found, IndexOfLlm(sample, env))) == WantedDialogIds(smart, sample, env)
  {
    LlmIdsAreFresh(sample, env);
    var mems, turns := LlmMemories(sample, env), TurnsOf(sample.sessions);
    var q := SearchFor(sample.sampleId, smart, env.normalise);
    RetrievalIsExact(mems, turns, q, found);
    forall n | 0 <= n < |mems| ensures Matches(mems[n], q) <==> WantedAt(smart, sample, env, turns[n]) {
      LlmMemoryAt(sample, env, n);
      MatchesIffWanted(sample, env, smart, turns[n], n);
    }
  }

  /** The dialog identifiers of the turns held with some confidence. */
  ghost function ConfidentDialogIds(sample: Sample, env: LlmEnvironment): set<string> {
    set n | 0 <= n < |TurnsOf(sample.sessions)| && InSample(sample, TurnsOf(sample.sessions)[n])
        && ClampConfidence(ClassAt(sample, env, TurnsOf(sample.sessions)[n]).confidence) >= 0.2 ::
      TurnsOf(sample.sessions)[n].turn.diaId
  }

  /** What a question is to be answered with: the turns its own plan asks for, or
      without a plan all that are not held to be unlikely. */
  ghost function AnswerFor(sample: Sample, env: LlmEnvironment, plan: Option<SmartQuery>): set<string> {
    if plan.Some? then WantedDialogIds(plan.value, sample, env) else ConfidentDialogIds(sample, env)
  }

  lemma BroadIsConfident(sample: Sample, env: LlmEnvironment)
    ensures WantedDialogIds(PlanOrBroad(None), sample, env) == ConfidentDialogIds(sample, env)
  {
    var turns := TurnsOf(sample.sessions);
    forall n | 0 <= n < |turns| && InSample(sample, turns[n])
      ensures WantedAt(PlanOrBroad(None), sample, env, turns[n])
         <==> ClampConfidence(ClassAt(sample, env, turns[n]).confidence) >= 0.2
    {
    }
  }

  /** Each question retrieves exactly what its own plan asks for. */
  lemma EachPlanIsAnswered(sample: Sample, env: LlmEnvironment, plans: nat -> Option<SmartQuery>, qa: seq<QAItem>,
                           results: seq<QueryResult>, found: seq<seq<Memory>>, i: nat)
    requires FreshIds(env.base, |TurnsOf(sample.sessions)|) && |TurnsOf(sample.sessions)| <= 10000
    requires AllAnswered(Stored(LlmMemories(sample, env), |LlmMemories(sample, env)|), IndexOfLlm(sample, env),
                         Searches(sample.sampleId, plans, env.normalise, |qa|), qa, results, found)
    requires i < |results|
    ensures results[i].qa == qa[i] && ElementsOf(results[i].retrievedIds) == AnswerFor(sample, env, plans(i))
  {
    hide IsTopK, WantedDialogIds, ConfidentDialogIds;
    var searches, memories := Searches(sample.sampleId, plans, env.normalise, |qa|), LlmMemories(sample, env);
    assert Answers(Stored(memories, |memories|), IndexOfLlm(sample, env), searches[i], qa[i], results[i], found[i]);
    PlanRetrievesWantedTurns(sample, env, PlanOrBroad(plans(i)), found[i]);
    BroadIsConfident(sample, env);
  }

  /** Ingest with the model, query and score. */
  method RunLlm(strategy: LlmStrategy, sample: Sample, env: LlmEnvironment, qa: seq<QAItem>,
                plans: nat -> Option<SmartQuery>)
    returns (r: Result<seq<QuestionScore>, StoreError>)
    modifies strategy
    ensures r.Ok? <==> FreshIds(env.base, |TurnsOf(sample.sessions)|)
    ensures r.Ok? ==> |r.value| == |qa|
    ensures r.Ok? && |TurnsOf(sample.sessions)| <= 10000 ==>
      forall i :: 0 <= i < |qa| ==> ScoredAgainst(AnswerFor(sample, env, plans(i)), qa[i], r.value[i])
  {
    hide ScoredAgainst, AnswerFor, AllAnswered, IsTopK;
    var outcome := LlmIngest.Ingest(sample, env);
    if outcome.Err? {
      return Err(outcome.error);
    }
    var ingested := outcome.value;
    ghost var mems := LlmMemories(sample, env);
    forall id | id in ingested.provider.memories ensures ingested.provider.memories[id].id == id {
      StoredKeys(mems, |mems|, id);
    }
    var results, found := strategy.Query(ingested, qa, plans, env.normalise);
    if |TurnsOf(sample.sessions)| <= 10000 {
      forall i | 0 <= i < |qa|
        ensures results[i].qa == qa[i] && ElementsOf(results[i].retrievedIds) == AnswerFor(sample, env, plans(i))
      {
        EachPlanIsAnswered(sample, env, plans, qa, results, found, i);
      }
    }
    var scores := ScoreAll(results);
    r := Ok(scores);
  }

  /** When the model fails for every batch and for the question, the question is
      answered as by the basic strategy: with every dialog identifier. */
  lemma TotalFailureRetrievesEverything(sample: Sample, env: LlmEnvironment, found: seq<Memory>)
    requires FreshIds(env.base, |TurnsOf(sample.sessions)|) && |TurnsOf(sample.sessions)| <= 10000
    requires forall s: nat, start: nat :: env.classify(s, start).None?
    requires FoundByPlan(sample, env, PlanOrBroad(None), found)
    ensures ElementsOf(DiaIdsOf(found, IndexOfLlm(sample, env))) == DialogIds(sample)
  {
    PlanRetrievesWantedTurns(sample, env, PlanOrBroad(None), found);
    EveryFailedTurnIsWanted(sample, env);
  }

  lemma EveryFailedTurnIsWanted(sample: Sample, env: LlmEnvironment)
    requires forall s: nat, start: nat :: env.classify(s, start).None?
    ensures WantedDialogIds(PlanOrBroad(None), sample, env) == DialogIds(sample)
  {
    var turns := TurnsOf(sample.sessions);
    forall n | 0 <= n < |turns| ensures WantedAt(PlanOrBroad(None), sample, env, turns[n]) {
      TurnsAreFromSessions(sample.sessions, n);
      FailedTurnIsWanted(sample, env, turns[n].session, turns[n].index);
    }
    assert WantedDialogIds(PlanOrBroad(None), sample, env) == TurnIds(turns);
    DialogIdsAreTurnIds(sample);
  }

  lemma FailedTurnIsWanted(sample: Sample, env: LlmEnvironment, s: nat, i: nat)
    requires s < |sample.sessions| && i < |sample.sessions[s].turns| && env.classify(s, StartOf(i)).None?
    ensures WantedAt(PlanOrBroad(None), sample, env, TurnAt(s, i, sample.sessions[s].turns[i]))
  {
    var turns := sample.sessions[s].turns;
    var batch := Batch(turns, StartOf(i));
    FallbackClass(batch, turns[i].diaId);
    assert ClassAt(sample, env, TurnAt(s, i, turns[i])).confidence == 0.5;
  }
}
