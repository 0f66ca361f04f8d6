/** The strategy that has a language model classify turns in batches and plan one
    search per question. The model's answers come from outside and may fail. */
module LlmIngest {
  import opened Results
  import opened MemoryStore
  import opened Locomo

  const CLASSIFY_BATCH_SIZE := 15

  datatype Classification =
    Classification(diaId: string, memoryType: string, confidence: real, tags: seq<string>, summary: string)

  /** The answer for the batch of a session that starts at a turn, None when the
      call or its parsing fails; and the trimmed lower-case form of a string. */
  datatype LlmEnvironment = LlmEnvironment(
    base: Environment, classify: (nat, nat) -> Option<seq<Classification>>, normalise: string -> string)

  const MEMORY_TYPES: set<string> := {EPISODIC, SEMANTIC, OPERATIONAL, WORKING}

  /** One of the four types is kept, anything else is episodic. */
  function ParseMemoryType(normalised: string): string {
    if normalised in MEMORY_TYPES then normalised else EPISODIC
  }

  lemma NamedTypesAreKept(normalised: string)
    ensures ParseMemoryType("episodic") == "episodic" && ParseMemoryType("semantic") == "semantic"
    ensures ParseMemoryType("operational") == "operational" && ParseMemoryType("working") == "working"
    ensures normalised !in {"episodic", "semantic", "operational", "working"} ==>
      ParseMemoryType(normalised) == "episodic"
  {
  }

  /** A confidence outside [0, 1] is moved to the nearest end. */
  function ClampConfidence(c: real): (r: real)
    ensures 0.0 <= r <= 1.0
    ensures 0.0 <= c <= 1.0 ==> r == c
    ensures c < 0.0 ==> r == 0.0
    ensures c > 1.0 ==> r == 1.0
  {
    if c < 0.0 then 0.0 else if c > 1.0 then 1.0 else c
  }

  // ---- Classifying a batch ----

  function DefaultClass(turn: Turn): Classification {
    Classification(turn.diaId, "episodic", 0.5, [], turn.text)
  }

  function Fallback(turns: seq<Turn>): seq<Classification> {
    seq(|turns|, i requires 0 <= i < |turns| => DefaultClass(turns[i]))
  }

  method FallbackClassify(turns: seq<Turn>) returns (result: seq<Classification>)
    ensures result == Fallback(turns)
  {
    result := [];
    for i := 0 to |turns|
      invariant result == Fallback(turns[..i])
    {
      result := result + [DefaultClass(turns[i])];
    }
    assert turns[..|turns|] == turns;
  }

  /** A later classification of the same dialog identifier replaces an earlier one. */
  function ClassMap(classes: seq<Classification>): map<string, Classification> {
    if classes == [] then map[]
    else ClassMap(classes[..|classes| - 1])[classes[|classes| - 1].diaId := classes[|classes| - 1]]
  }

  method BuildClassMap(classes: seq<Classification>) returns (m: map<string, Classification>)
    ensures m == ClassMap(classes)
  {
    m := map[];
    for i := 0 to |classes|
      invariant m == ClassMap(classes[..i])
    {
      assert classes[..i + 1][..i] == classes[..i];
      m := m[classes[i].diaId := classes[i]];
    }
    assert classes[..|classes|] == classes;
  }

  /** The greatest position with that identifier. */
  predicate IsLastOf(classes: seq<Classification>, id: string, i: int) {
    && 0 <= i < |classes| && classes[i].diaId == id
    && forall k :: i < k < |classes| ==> classes[k].diaId != id
  }

  /** The lookup holds the last classification of an identifier. */
  lemma {:induction false} LastClassWins(classes: seq<Classification>, id: string, i: int)
    requires IsLastOf(classes, id, i)
    ensures id in ClassMap(classes) && ClassMap(classes)[id] == classes[i]
    decreases |classes|
  {
    var n := |classes| - 1;
    if i < n {
      assert classes[..n][i] == classes[i];
      LastClassWins(classes[..n], id, i);
    }
  }

  /** And no identifier that was not classified. */
  lemma {:induction false} OnlyClassified(classes: seq<Classification>, id: string)
    requires forall k :: 0 <= k < |classes| ==> classes[k].diaId != id
    ensures id !in ClassMap(classes)
  {
    if classes != [] {
      OnlyClassified(classes[..|classes| - 1], id);
    }
  }

  function ClassOf(turn: Turn, classMap: map<string, Classification>): Classification {
    if turn.diaId in classMap then classMap[turn.diaId] else DefaultClass(turn)
  }

  function BatchEnd(turns: seq<Turn>, start: nat): nat
    requires start <= |turns|
  {
    if start + CLASSIFY_BATCH_SIZE > |turns| then |turns| else start + CLASSIFY_BATCH_SIZE
  }

  function Batch(turns: seq<Turn>, start: nat): seq<Turn>
    requires start <= |turns|
  {
    turns[start..BatchEnd(turns, start)]
  }

  /** Where the batch of the i-th turn of a session starts. */
  function StartOf(i: nat): (start: nat)
    ensures start <= i < start + CLASSIFY_BATCH_SIZE
  {
    if i < CLASSIFY_BATCH_SIZE then 0 else StartOf(i - CLASSIFY_BATCH_SIZE) + CLASSIFY_BATCH_SIZE
  }

  function Classes(env: LlmEnvironment, turns: seq<Turn>, s: nat, start: nat): seq<Classification>
    requires start <= |turns|
  {
    var answer := env.classify(s, start);
    if answer.Some? then answer.value else Fallback(Batch(turns, start))
  }

  // ---- Ingest ----

  predicate InSample(sample: Sample, at: TurnAt) {
    at.session < |sample.sessions| && at.index < |sample.sessions[at.session].turns|
  }

  /** The lookup for the batch that starts at a turn. */
  function BatchClasses(sample: Sample, env: LlmEnvironment, s: nat, start: nat): map<string, Classification>
    requires s < |sample.sessions| && start <= |sample.sessions[s].turns|
  {
    ClassMap(Classes(env, sample.sessions[s].turns, s, start))
  }

  /** How the model's answers classify a turn of the sample. */
  function ClassAt(sample: Sample, env: LlmEnvironment, at: TurnAt): Classification
    requires InSample(sample, at)
  {
    ClassOf(at.turn, BatchClasses(sample, env, at.session, StartOf(at.index)))
  }

  function ClassifiedMemory(sample: Sample, env: LlmEnvironment, at: TurnAt, n: nat, cls: Classification): Memory
    requires InSample(sample, at)
  {
    var index := sample.sessions[at.session].index;
    NewMemory(env.base.freshId(n), ParseMemoryType(env.normalise(cls.memoryType)),
              Fields(map["speaker" := at.turn.speaker, "text" := at.turn.text, "dia_id" := at.turn.diaId,
                         "summary" := cls.summary]),
              at.turn.speaker, sample.sampleId, env.base.clock(n))
      .(confidence := ClampConfidence(cls.confidence),
        tags := [SessionTag(env.base, index)] + cls.tags,
        metadata := map["dia_id" := at.turn.diaId, "session" := env.base.decimal(index), "summary" := cls.summary],
        createdAt := env.base.startOf(at.session) + at.index * SECOND)
  }

  lemma TurnsInSample(sample: Sample)
    ensures forall n :: 0 <= n < |TurnsOf(sample.sessions)| ==> InSample(sample, TurnsOf(sample.sessions)[n])
  {
    forall n | 0 <= n < |TurnsOf(sample.sessions)| ensures InSample(sample, TurnsOf(sample.sessions)[n]) {
      TurnsAreFromSessions(sample.sessions, n);
    }
  }

  /** The memory stored for the n-th turn of the sample. */
  ghost function LlmMemory(sample: Sample, env: LlmEnvironment, n: nat): Memory
    requires n < |TurnsOf(sample.sessions)|
  {
    TurnsInSample(sample);
    var at := TurnsOf(sample.sessions)[n];
    ClassifiedMemory(sample, env, at, n, ClassAt(sample, env, at))
  }

  ghost function LlmMemories(sample: Sample, env: LlmEnvironment): (mems: seq<Memory>)
    ensures |mems| == |TurnsOf(sample.sessions)|
  {
    seq(|TurnsOf(sample.sessions)|, n requires 0 <= n < |TurnsOf(sample.sessions)| => LlmMemory(sample, env, n))
  }

  lemma LlmMemoryAt(sample: Sample, env: LlmEnvironment, n: nat)
    requires n < |TurnsOf(sample.sessions)|
    ensures var at := TurnsOf(sample.sessions)[n];
      && InSample(sample, at) && at.turn == sample.sessions[at.session].turns[at.index]
      && LlmMemories(sample, env)[n] == ClassifiedMemory(sample, env, at, n, ClassAt(sample, env, at))
  {
    TurnsInSample(sample);
    TurnsAreFromSessions(sample.sessions, n);
  }

  /** A turn is classified with the answer for the batch it is in. */
  lemma ClassInBatch(sample: Sample, env: LlmEnvironment, s: nat, start: nat, i: nat)
    requires s < |sample.sessions| && start < |sample.sessions[s].turns| && StartOf(start) == start
    requires i < |Batch(sample.sessions[s].turns, start)|
    ensures var at := TurnAt(s, start + i, sample.sessions[s].turns[start + i]);
      ClassAt(sample, env, at) == ClassOf(at.turn, BatchClasses(sample, env, s, start))
  {
    SameBatch(start, i);
  }

  lemma BatchTurn(sample: Sample, s: nat, start: nat, i: nat)
    requires s < |sample.sessions| && start < |sample.sessions[s].turns|
    requires i < |Batch(sample.sessions[s].turns, start)|
    ensures var n := |TurnsOf(sample.sessions[..s])| + start + i;
      n < |TurnsOf(sample.sessions)|
      && TurnsOf(sample.sessions)[n] == TurnAt(s, start + i, sample.sessions[s].turns[start + i])
  {
    TurnAtIndex(sample.sessions, s, start + i);
  }

  /** The memory a batch stores for its i-th turn is the one due there. */
  lemma BatchMemory(sample: Sample, env: LlmEnvironment, s: nat, start: nat, i: nat)
    requires s < |sample.sessions| && start < |sample.sessions[s].turns| && StartOf(start) == start
    requires i < |Batch(sample.sessions[s].turns, start)|
    ensures var n := |TurnsOf(sample.sessions[..s])| + start + i;
      var at := TurnAt(s, start + i, sample.sessions[s].turns[start + i]);
      && n < |TurnsOf(sample.sessions)| && TurnsOf(sample.sessions)[n] == at
      && LlmMemories(sample, env)[n]
         == ClassifiedMemory(sample, env, at, n, ClassOf(at.turn, BatchClasses(sample, env, s, start)))
  {
    BatchTurn(sample, s, start, i);
    ClassInBatch(sample, env, s, start, i);
    LlmMemoryAt(sample, env, |TurnsOf(sample.sessions[..s])| + start + i);
  }

  /** Position `at` holds a turn, the k-th of session `s`, and its memory. */
  ghost predicate TurnIsNext(sample: Sample, env: LlmEnvironment, s: nat, k: nat, turn: Turn,
                             classMap: map<string, Classification>, mems: seq<Memory>, turns: seq<TurnAt>, at: int)
  {
    && InSample(sample, TurnAt(s, k, turn))
    && 0 <= at < |mems| == |turns|
    && turns[at] == TurnAt(s, k, turn)
    && mems[at] == ClassifiedMemory(sample, env, TurnAt(s, k, turn), at, ClassOf(turn, classMap))
  }

  /** The memories and turns from `at` on are those of a batch. */
  ghost predicate BatchIsNext(sample: Sample, env: LlmEnvironment, s: nat, start: nat, batch: seq<Turn>,
                              classMap: map<string, Classification>, mems: seq<Memory>, turns: seq<TurnAt>, at: int)
  {
    forall i :: 0 <= i < |batch| ==> TurnIsNext(sample, env, s, start + i, batch[i], classMap, mems, turns, at + i)
  }

  predicate StartsBatch(sample: Sample, s: nat, start: nat) {
    s < |sample.sessions| && start < |sample.sessions[s].turns| && StartOf(start) == start
  }

  /** The memories of one batch, classified with its own answer, are in place. */
  ghost predicate BatchInOrder(sample: Sample, env: LlmEnvironment, s: nat, start: nat,
                               mems: seq<Memory>, turns: seq<TurnAt>)
    requires StartsBatch(sample, s, start)
  {
    BatchIsNext(sample, env, s, start, Batch(sample.sessions[s].turns, start),
                BatchClasses(sample, env, s, start), mems, turns,
                |TurnsOf(sample.sessions[..s])| + start)
  }

  /** The memories are those due for every batch of the sample, in order. */
  ghost predicate BatchesInOrder(sample: Sample, env: LlmEnvironment, mems: seq<Memory>, turns: seq<TurnAt>) {
    forall s: nat, start: nat | StartsBatch(sample, s, start) :: BatchInOrder(sample, env, s, start, mems, turns)
  }

  lemma LlmBatchesInOrder(sample: Sample, env: LlmEnvironment)
    ensures BatchesInOrder(sample, env, LlmMemories(sample, env), TurnsOf(sample.sessions))
  {
    forall s: nat, start: nat | StartsBatch(sample, s, start)
      ensures BatchInOrder(sample, env, s, start, LlmMemories(sample, env), TurnsOf(sample.sessions))
    {
      LlmBatchInOrder(sample, env, s, start);
    }
  }

  lemma LlmBatchInOrder(sample: Sample, env: LlmEnvironment, s: nat, start: nat)
    requires StartsBatch(sample, s, start)
    ensures BatchInOrder(sample, env, s, start, LlmMemories(sample, env), TurnsOf(sample.sessions))
  {
    var sessionTurns := sample.sessions[s].turns;
    var batch, classMap := Batch(sessionTurns, start), BatchClasses(sample, env, s, start);
    forall i | 0 <= i < |batch|
      ensures TurnIsNext(sample, env, s, start + i, batch[i], classMap, LlmMemories(sample, env),
                         TurnsOf(sample.sessions), |TurnsOf(sample.sessions[..s])| + start + i)
    {
      BatchMemory(sample, env, s, start, i);
    }
  }

  method StoreTurn(result: IngestedSample, sample: Sample, env: LlmEnvironment, s: nat, k: nat, turn: Turn,
                   classMap: map<string, Classification>, ghost mems: seq<Memory>, ghost turns: seq<TurnAt>)
    returns (r: Outcome<StoreError>)
    requires HasIngested(result, mems, turns, result.turnCount)
    requires TurnIsNext(sample, env, s, k, turn, classMap, mems, turns, result.turnCount)
    modifies result`memToDiaId, result`turnCount, result.provider
    ensures r.Fail? ==> !DistinctIds(mems)
    ensures r.Pass? ==> HasIngested(result, mems, turns, old(result.turnCount) + 1)
  {
    var mem := ClassifiedMemory(sample, env, TurnAt(s, k, turn), result.turnCount, ClassOf(turn, classMap));
    r := AddNext(result, mem, turn.diaId, mems, turns);
  }

  method StoreBatch(result: IngestedSample, sample: Sample, env: LlmEnvironment, s: nat, start: nat, batch: seq<Turn>,
                    classMap: map<string, Classification>, ghost mems: seq<Memory>, ghost turns: seq<TurnAt>)
    returns (r: Outcome<StoreError>)
    requires HasIngested(result, mems, turns, result.turnCount)
    requires BatchIsNext(sample, env, s, start, batch, classMap, mems, turns, result.turnCount)
    modifies result`memToDiaId, result`turnCount, result.provider
    ensures r.Fail? ==> !DistinctIds(mems)
    ensures r.Pass? ==> HasIngested(result, mems, turns, old(result.turnCount) + |batch|)
  {
    ghost var before := result.turnCount;
    for i := 0 to |batch|
      invariant HasIngested(result, mems, turns, before + i)
    {
      r := StoreTurn(result, sample, env, s, start + i, batch[i], classMap, mems, turns);
      if r.Fail? {
        return;
      }
    }
    r := Pass;
  }

  lemma {:induction false} SameBatch(start: nat, i: nat)
    requires StartOf(start) == start && i < CLASSIFY_BATCH_SIZE
    ensures StartOf(start + i) == start
  {
    if start >= CLASSIFY_BATCH_SIZE {
      SameBatch(start - CLASSIFY_BATCH_SIZE, i);
    }
  }

  lemma {:induction false} BatchStartsBatch(i: nat)
    ensures StartOf(StartOf(i)) == StartOf(i)
  {
    if i >= CLASSIFY_BATCH_SIZE {
      BatchStartsBatch(i - CLASSIFY_BATCH_SIZE);
    }
  }

  /** Batches follow each other without a gap. */
  lemma NextBatch(turns: seq<Turn>, start: nat)
    requires start < |turns| && StartOf(start) == start
    ensures var end := BatchEnd(turns, start);
      start < end <= |turns| && (end < |turns| ==> StartOf(end) == end)
  {
  }

  /** Classify one batch, or fall back, and store its turns. */
  method IngestBatch(result: IngestedSample, sample: Sample, env: LlmEnvironment, s: nat, start: nat,
                     ghost mems: seq<Memory>, ghost turns: seq<TurnAt>)
    returns (r: Outcome<StoreError>)
    requires StartsBatch(sample, s, start) && BatchInOrder(sample, env, s, start, mems, turns)
    requires HasIngested(result, mems, turns, |TurnsOf(sample.sessions[..s])| + start)
    modifies result`memToDiaId, result`turnCount, result.provider
    ensures r.Fail? ==> !DistinctIds(mems)
    ensures r.Pass? ==>
      HasIngested(result, mems, turns, |TurnsOf(sample.sessions[..s])| + BatchEnd(sample.sessions[s].turns, start))
  {
    hide TurnIsNext, TurnsOf, ClassMap, Classes, Stored, DiaIndex, DistinctIds;
    var classes := ClassifyOrFallBack(env, sample.sessions[s].turns, s, start);
    var classMap := BuildClassMap(classes);
    r := StoreBatch(result, sample, env, s, start, Batch(sample.sessions[s].turns, start), classMap, mems, turns);
  }

  method IngestSession(result: IngestedSample, sample: Sample, env: LlmEnvironment, s: nat,
                       ghost mems: seq<Memory>, ghost turns: seq<TurnAt>)
    returns (r: Outcome<StoreError>)
    requires s < |sample.sessions|
    requires BatchesInOrder(sample, env, mems, turns)
    requires HasIngested(result, mems, turns, |TurnsOf(sample.sessions[..s])|)
    modifies result`memToDiaId, result`turnCount, result.provider
    ensures r.Fail? ==> !DistinctIds(mems)
    ensures r.Pass? ==>
      HasIngested(result, mems, turns, |TurnsOf(sample.sessions[..s])| + |sample.sessions[s].turns|)
  {
    var start := 0;
    while start < |sample.sessions[s].turns|
      invariant 0 <= start <= |sample.sessions[s].turns|
      invariant start < |sample.sessions[s].turns| ==> StartOf(start) == start
      invariant HasIngested(result, mems, turns, |TurnsOf(sample.sessions[..s])| + start)
    {
      assert StartsBatch(sample, s, start);
      r := IngestBatch(result, sample, env, s, start, mems, turns);
      if r.Fail? {
        return;
      }
      NextBatch(sample.sessions[s].turns, start);
      start := BatchEnd(sample.sessions[s].turns, start);
    }
    r := Pass;
  }

  lemma LlmIdsAreFresh(sample: Sample, env: LlmEnvironment)
    ensures DistinctIds(LlmMemories(sample, env)) <==> FreshIds(env.base, |TurnsOf(sample.sessions)|)
  {
    var mems := LlmMemories(sample, env);
    forall n | 0 <= n < |mems| ensures mems[n].id == env.base.freshId(n) {
      LlmMemoryAt(sample, env, n);
    }
  }

  /** Every turn is stored once, classified with its own batch. */
  method Ingest(sample: Sample, env: LlmEnvironment) returns (r: Result<IngestedSample, StoreError>)
    ensures r.Ok? <==> FreshIds(env.base, |TurnsOf(sample.sessions)|)
    ensures r.Ok? ==>
      && fresh(r.value) && fresh(r.value.provider)
      && r.value.sampleId == sample.sampleId
      && HasIngested(r.value, LlmMemories(sample, env), TurnsOf(sample.sessions), |TurnsOf(sample.sessions)|)
  {
    LlmBatchesInOrder(sample, env);
    LlmIdsAreFresh(sample, env);
    assert LlmMemories(sample, env)[..|TurnsOf(sample.sessions)|] == LlmMemories(sample, env);
    r := IngestSessions(sample, env, LlmMemories(sample, env), TurnsOf(sample.sessions));
  }

  method IngestSessions(sample: Sample, env: LlmEnvironment, ghost mems: seq<Memory>, ghost turns: seq<TurnAt>)
    returns (r: Result<IngestedSample, StoreError>)
    requires BatchesInOrder(sample, env, mems, turns) && |mems| == |turns|
    ensures r.Err? ==> !DistinctIds(mems)
    ensures r.Ok? ==>
      && fresh(r.value) && fresh(r.value.provider)
      && r.value.sampleId == sample.sampleId
      && HasIngested(r.value, mems, turns, |TurnsOf(sample.sessions)|)
  {
    var result := new IngestedSample(sample.sampleId);
    for s := 0 to |sample.sessions|
      invariant fresh(result) && fresh(result.provider)
      invariant HasIngested(result, mems, turns, |TurnsOf(sample.sessions[..s])|)
    {
      assert sample.sessions[..s + 1][..s] == sample.sessions[..s];
      var stored := IngestSession(result, sample, env, s, mems, turns);
      if stored.Fail? {
        return Err(stored.error);
      }
    }
    assert sample.sessions[..|sample.sessions|] == sample.sessions;
    r := Ok(result);
  }

  method ClassifyOrFallBack(env: LlmEnvironment, turns: seq<Turn>, s: nat, start: nat)
    returns (classes: seq<Classification>)
    requires start <= |turns|
    ensures classes == Classes(env, turns, s, start)
  {
    var answer := env.classify(s, start);
    if answer.None? {
      classes := FallbackClassify(Batch(turns, start));
    } else {
      classes := answer.value;
    }
  }

  lemma {:induction false} StartIsMultiple(i: nat)
    ensures StartOf(i) == i / 15 * 15
  {
    if i >= 15 {
      StartIsMultiple(i - 15);
      assert i / 15 == (i - 15) / 15 + 1;
    }
  }

  /** The default for a turn that an answer does not mention, and for a failure. */
  predicate IsDefault(cls: Classification, id: string, text: string) {
    cls.diaId == id && cls.memoryType == "episodic" && cls.confidence == 0.5 && cls.tags == [] && cls.summary == text
  }

  /** A turn of the batch with that identifier, and no later one has it. */
  predicate LastInBatch(turns: seq<Turn>, start: nat, id: string, k: int) {
    && start <= k < start + 15 && k < |turns| && turns[k].diaId == id
    && forall j :: k < j < start + 15 && j < |turns| ==> turns[j].diaId != id
  }

  /** The i-th turn of a session is classified by the answer for its batch of 15:
      as by the last classification of its identifier there, by default if there
      is none; if the answer failed, by default with the text of the batch's last
      turn of that identifier. */
  lemma ClassOfTurn(sample: Sample, env: LlmEnvironment, s: nat, i: nat)
    requires s < |sample.sessions| && i < |sample.sessions[s].turns|
    ensures var turns, start := sample.sessions[s].turns, i / 15 * 15;
      var id, answer, cls := turns[i].diaId, env.classify(s, start), ClassAt(sample, env, TurnAt(s, i, turns[i]));
      && (answer.Some? ==>
            && (forall k :: IsLastOf(answer.value, id, k) ==> cls == answer.value[k])
            && ((forall k :: 0 <= k < |answer.value| ==> answer.value[k].diaId != id) ==>
                  IsDefault(cls, id, turns[i].text)))
      && (answer.None? ==> forall k :: LastInBatch(turns, start, id, k) ==> IsDefault(cls, id, turns[k].text))
  {
    StartIsMultiple(i);
    var turns, start := sample.sessions[s].turns, i / 15 * 15;
    var id, answer := turns[i].diaId, env.classify(s, start);
    if answer.Some? {
      forall k | IsLastOf(answer.value, id, k)
        ensures id in ClassMap(answer.value) && ClassMap(answer.value)[id] == answer.value[k]
      {
        LastClassWins(answer.value, id, k);
      }
      if forall k :: 0 <= k < |answer.value| ==> answer.value[k].diaId != id {
        OnlyClassified(answer.value, id);
      }
    } else {
      var batch := Batch(turns, start);
      forall k | LastInBatch(turns, start, id, k)
        ensures id in ClassMap(Fallback(batch)) && ClassMap(Fallback(batch))[id] == DefaultClass(turns[k])
      {
        LastClassWins(Fallback(batch), id, k - start);
      }
    }
  }

  /** Whatever the model answers: the type and the confidence it gives the turn,
      made one of the four and moved into [0, 1]; the turn's own words, speaker and
      identifier, its summary, its session's tag before its own, and a time one
      second per turn after the start of the session. */
  lemma StoredTurnShape(sample: Sample, env: LlmEnvironment, n: nat)
    requires n < |TurnsOf(sample.sessions)|
    ensures var at, mem := TurnsOf(sample.sessions)[n], LlmMemories(sample, env)[n];
      && InSample(sample, at)
      && var session, cls := sample.sessions[at.session], ClassAt(sample, env, at);
      && var turn, number := session.turns[at.index], env.base.decimal(session.index);
      && at.turn == turn && n == |TurnsOf(sample.sessions[..at.session])| + at.index
      && mem.id == env.base.freshId(n)
      && mem.typ == ParseMemoryType(env.normalise(cls.memoryType)) && mem.typ in MEMORY_TYPES
      && mem.confidence == ClampConfidence(cls.confidence)
      && mem.tenantId == sample.sampleId && mem.actorId == turn.speaker
      && mem.content == Fields(map["speaker" := turn.speaker, "text" := turn.text, "dia_id" := turn.diaId,
                                   "summary" := cls.summary])
      && mem.tags == ["session-" + number] + cls.tags
      && mem.metadata == map["dia_id" := turn.diaId, "session" := number, "summary" := cls.summary]
      && mem.createdAt == env.base.startOf(at.session) + at.index * 1_000_000_000
      && mem.accessedAt == env.base.clock(n) && mem.expiresAt == 0
  {
    LlmMemoryAt(sample, env, n);
    TurnsAreFromSessions(sample.sessions, n);
  }

  // ---- A failed classification against an empty one ----

  lemma {:induction false} FallbackClass(batch: seq<Turn>, id: string)
    ensures id in ClassMap(Fallback(batch)) <==> exists i :: 0 <= i < |batch| && batch[i].diaId == id
    ensures id in ClassMap(Fallback(batch)) ==>
      exists i :: 0 <= i < |batch| && batch[i].diaId == id && ClassMap(Fallback(batch))[id] == DefaultClass(batch[i])
  {
    if batch != [] {
      var n := |batch| - 1;
      var init := batch[..n];
      FallbackClass(init, id);
      assert Fallback(batch)[..n] == Fallback(init);
      if batch[n].diaId != id {
        if id in ClassMap(Fallback(init)) {
          var i :| 0 <= i < |init| && init[i].diaId == id && ClassMap(Fallback(init))[id] == DefaultClass(init[i]);
          assert batch[i] == init[i];
        }
        if exists i :: 0 <= i < |batch| && batch[i].diaId == id {
          var i :| 0 <= i < |batch| && batch[i].diaId == id;
          assert init[i] == batch[i];
        }
      }
    }
  }

  ghost predicate SameIdSameText(batch: seq<Turn>) {
    forall i, j :: 0 <= i < |batch| && 0 <= j < |batch| && batch[i].diaId == batch[j].diaId ==>
      batch[i].text == batch[j].text
  }

  ghost predicate FallbackIsDefault(batch: seq<Turn>) {
    forall i :: 0 <= i < |batch| ==> ClassOf(batch[i], ClassMap(Fallback(batch))) == DefaultClass(batch[i])
  }

  /** Falling back gives every turn the default, as an empty answer does, exactly
      when turns of the batch that share a dialog identifier share their text. */
  lemma FallbackIsDefaultIff(batch: seq<Turn>)
    ensures FallbackIsDefault(batch) <==> SameIdSameText(batch)
  {
    if SameIdSameText(batch) {
      forall i | 0 <= i < |batch| ensures ClassOf(batch[i], ClassMap(Fallback(batch))) == DefaultClass(batch[i]) {
        FallbackClass(batch, batch[i].diaId);
      }
    }
    if FallbackIsDefault(batch) {
      forall i, j | 0 <= i < |batch| && 0 <= j < |batch| && batch[i].diaId == batch[j].diaId
        ensures batch[i].text == batch[j].text
      {
        FallbackClass(batch, batch[i].diaId);
        assert ClassOf(batch[i], ClassMap(Fallback(batch))) == ClassOf(batch[j], ClassMap(Fallback(batch)));
      }
    }
  }

  /** The same environment with an empty answer in place of every failure. */
  function EmptyForFailed(env: LlmEnvironment): LlmEnvironment {
    env.(classify := (s: nat, start: nat) => if env.classify(s, start).Some? then env.classify(s, start) else Some([]))
  }

  /** Every batch whose classification fails has one text per dialog identifier. */
  ghost predicate FailedBatchesConsistent(sample: Sample, env: LlmEnvironment) {
    forall s, i ::
      0 <= s < |sample.sessions| && 0 <= i < |sample.sessions[s].turns| && env.classify(s, StartOf(i)).None? ==>
        SameIdSameText(Batch(sample.sessions[s].turns, StartOf(i)))
  }

  /** A failed classification stores what an empty answer would, for the whole
      sample, exactly when the failed batches are consistent. */
  lemma FailureStoresLikeEmptyIff(sample: Sample, env: LlmEnvironment)
    ensures LlmMemories(sample, env) == LlmMemories(sample, EmptyForFailed(env))
       <==> FailedBatchesConsistent(sample, env)
  {
    var turns := TurnsOf(sample.sessions);
    var here, there := LlmMemories(sample, env), LlmMemories(sample, EmptyForFailed(env));
    if FailedBatchesConsistent(sample, env) {
      forall n | 0 <= n < |turns| ensures here[n] == there[n] {
        LlmMemoryAt(sample, env, n);
        LlmMemoryAt(sample, EmptyForFailed(env), n);
        ConsistentTurn(sample, env, turns[n]);
      }
    }
    if here == there {
      forall s, i | 0 <= s < |sample.sessions| && 0 <= i < |sample.sessions[s].turns|
        && env.classify(s, StartOf(i)).None?
        ensures SameIdSameText(Batch(sample.sessions[s].turns, StartOf(i)))
      {
        BatchStartsBatch(i);
        EqualMemoriesConsistent(sample, env, s, StartOf(i));
      }
    }
  }

  lemma ConsistentTurn(sample: Sample, env: LlmEnvironment, at: TurnAt)
    requires InSample(sample, at) && at.turn == sample.sessions[at.session].turns[at.index]
    requires FailedBatchesConsistent(sample, env)
    ensures ClassAt(sample, env, at) == ClassAt(sample, EmptyForFailed(env), at)
  {
    var start := StartOf(at.index);
    if env.classify(at.session, start).None? {
      var batch := Batch(sample.sessions[at.session].turns, start);
      FallbackIsDefaultIff(batch);
      assert batch[at.index - start] == at.turn;
    }
  }

  lemma SameMemorySameSummary(sample: Sample, env: LlmEnvironment, env': LlmEnvironment, at: TurnAt, n: nat,
                              c: Classification, d: Classification)
    requires InSample(sample, at)
    requires ClassifiedMemory(sample, env, at, n, c) == ClassifiedMemory(sample, env', at, n, d)
    ensures c.summary == d.summary
  {
    assert ClassifiedMemory(sample, env, at, n, c).metadata["summary"] == c.summary;
    assert ClassifiedMemory(sample, env', at, n, d).metadata["summary"] == d.summary;
  }

  lemma EqualMemorySummary(sample: Sample, env: LlmEnvironment, env': LlmEnvironment, s: nat, start: nat, i: nat)
    requires LlmMemories(sample, env) == LlmMemories(sample, env')
    requires StartsBatch(sample, s, start) && i < |Batch(sample.sessions[s].turns, start)|
    ensures var turn := sample.sessions[s].turns[start + i];
      ClassOf(turn, BatchClasses(sample, env, s, start)).summary
        == ClassOf(turn, BatchClasses(sample, env', s, start)).summary
  {
    var turn, n := sample.sessions[s].turns[start + i], |TurnsOf(sample.sessions[..s])| + start + i;
    BatchMemory(sample, env, s, start, i);
    BatchMemory(sample, env', s, start, i);
    SameMemorySameSummary(sample, env, env', TurnAt(s, start + i, turn), n,
                          ClassOf(turn, BatchClasses(sample, env, s, start)),
                          ClassOf(turn, BatchClasses(sample, env', s, start)));
  }

  lemma EqualMemoriesConsistent(sample: Sample, env: LlmEnvironment, s: nat, start: nat)
    requires LlmMemories(sample, env) == LlmMemories(sample, EmptyForFailed(env))
    requires StartsBatch(sample, s, start) && env.classify(s, start).None?
    ensures SameIdSameText(Batch(sample.sessions[s].turns, start))
  {
    var batch := Batch(sample.sessions[s].turns, start);
    forall i | 0 <= i < |batch| ensures ClassOf(batch[i], ClassMap(Fallback(batch))) == DefaultClass(batch[i]) {
      EqualMemorySummary(sample, env, EmptyForFailed(env), s, start, i);
      FallbackClass(batch, batch[i].diaId);
    }
    FallbackIsDefaultIff(batch);
  }
}
