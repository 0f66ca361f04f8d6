/** The basic benchmark strategy: ingest every turn, search once, score. */
module Locomo {
  import opened Results
  import opened MemoryStore

  const SECOND: int := 1_000_000_000

  datatype Turn = Turn(speaker: string, diaId: string, text: string)

  datatype Session = Session(index: int, turns: seq<Turn>)

  datatype Sample = Sample(sampleId: string, sessions: seq<Session>)

  /** Fresh identifiers, the start time of each session (by position, as its date
      is parsed), the clock reading of each new memory, and number formatting. */
  datatype Environment = Environment(
    freshId: nat -> string, startOf: nat -> int, clock: nat -> int, decimal: int -> string)

  // ---- The turns of a sample in order ----

  /** A turn with its session's position and its own index there. */
  datatype TurnAt = TurnAt(session: nat, index: nat, turn: Turn)

  function SessionTurns(s: nat, turns: seq<Turn>): seq<TurnAt> {
    seq(|turns|, i requires 0 <= i < |turns| => TurnAt(s, i, turns[i]))
  }

  function TurnsOf(sessions: seq<Session>): seq<TurnAt> {
    if sessions == [] then []
    else
      var n := |sessions| - 1;
      TurnsOf(sessions[..n]) + SessionTurns(n, sessions[n].turns)
  }

  lemma {:induction false} TurnAtIndex(sessions: seq<Session>, s: nat, i: nat)
    requires s < |sessions| && i < |sessions[s].turns|
    ensures var n := |TurnsOf(sessions[..s])| + i;
      n < |TurnsOf(sessions)| && TurnsOf(sessions)[n] == TurnAt(s, i, sessions[s].turns[i])
    decreases |sessions|
  {
    var n := |sessions| - 1;
    if s < n {
      TurnAtIndex(sessions[..n], s, i);
      assert sessions[..n][..s] == sessions[..s];
    }
  }

  /** Every entry is a turn of the sample, at its own place. */
  lemma {:induction false} TurnsAreFromSessions(sessions: seq<Session>, n: nat)
    requires n < |TurnsOf(sessions)|
    ensures var t := TurnsOf(sessions)[n];
      && t.session < |sessions| && t.index < |sessions[t.session].turns|
      && t.turn == sessions[t.session].turns[t.index]
      && n == |TurnsOf(sessions[..t.session])| + t.index
    decreases |sessions|
  {
    var m := |sessions| - 1;
    if n < |TurnsOf(sessions[..m])| {
      TurnsAreFromSessions(sessions[..m], n);
      var t := TurnsOf(sessions)[n];
      assert sessions[..m][..t.session] == sessions[..t.session];
    }
  }

  // ---- Ingest ----

  function SessionTag(env: Environment, index: int): string {
    "session-" + env.decimal(index)
  }

  /** The memory stored for the n-th turn of the sample. */
  function BasicMemory(sample: Sample, env: Environment, at: TurnAt, n: nat): Memory
    requires at.session < |sample.sessions|
  {
    var index := sample.sessions[at.session].index;
    NewMemory(env.freshId(n), EPISODIC,
              Fields(map["speaker" := at.turn.speaker, "text" := at.turn.text, "dia_id" := at.turn.diaId]),
              at.turn.speaker, sample.sampleId, env.clock(n))
      .(tags := [SessionTag(env, index)],
        metadata := map["dia_id" := at.turn.diaId, "session" := env.decimal(index)],
        createdAt := env.startOf(at.session) + at.index * SECOND)
  }

  /** The first `n` identifiers handed out are different. */
  ghost predicate FreshIds(env: Environment, n: nat) {
    forall i, j :: 0 <= i < j < n ==> env.freshId(i) != env.freshId(j)
  }

  ghost function BasicMemories(sample: Sample, env: Environment): (mems: seq<Memory>)
    ensures |mems| == |TurnsOf(sample.sessions)|
    ensures forall n :: 0 <= n < |mems| ==>
      TurnsOf(sample.sessions)[n].session < |sample.sessions|
      && mems[n] == BasicMemory(sample, env, TurnsOf(sample.sessions)[n], n)
  {
    var turns := TurnsOf(sample.sessions);
    assert forall n :: 0 <= n < |turns| ==> turns[n].session < |sample.sessions| by {
      forall n | 0 <= n < |turns| ensures turns[n].session < |sample.sessions| {
        TurnsAreFromSessions(sample.sessions, n);
      }
    }
    seq(|turns|, n requires 0 <= n < |turns| && turns[n].session < |sample.sessions| =>
      BasicMemory(sample, env, turns[n], n))
  }

  lemma BasicIdsAreFresh(sample: Sample, env: Environment)
    ensures DistinctIds(BasicMemories(sample, env)) <==> FreshIds(env, |TurnsOf(sample.sessions)|)
  {
    var mems := BasicMemories(sample, env);
    assert forall n :: 0 <= n < |mems| ==> mems[n].id == env.freshId(n);
  }

  /** What is stored for a turn: the text and who spoke it, under the sample, with
      full confidence, the tag of its session, and a time one second per turn after
      the start of the session. */
  lemma BasicTurnShape(sample: Sample, env: Environment, n: nat)
    requires n < |TurnsOf(sample.sessions)|
    ensures var at, mem := TurnsOf(sample.sessions)[n], BasicMemories(sample, env)[n];
      && at.session < |sample.sessions| && at.index < |sample.sessions[at.session].turns|
      && var session := sample.sessions[at.session]; var turn := session.turns[at.index];
      && n == |TurnsOf(sample.sessions[..at.session])| + at.index
      && mem.id == env.freshId(n) && mem.typ == "episodic" && mem.confidence == 1.0
      && mem.tenantId == sample.sampleId && mem.actorId == turn.speaker
      && mem.content == Fields(map["speaker" := turn.speaker, "text" := turn.text, "dia_id" := turn.diaId])
      && mem.tags == ["session-" + env.decimal(session.index)]
      && mem.metadata == map["dia_id" := turn.diaId, "session" := env.decimal(session.index)]
      && mem.createdAt == env.startOf(at.session) + at.index * 1_000_000_000
      && mem.accessedAt == env.clock(n) && mem.expiresAt == 0
  {
    TurnsAreFromSessions(sample.sessions, n);
  }

  /** A store holding exactly the first `n` memories of a list. */
  function Stored(mems: seq<Memory>, n: nat): Store
    requires n <= |mems|
  {
    if n == 0 then map[] else Stored(mems, n - 1)[mems[n - 1].id := mems[n - 1]]
  }

  /** The index from memory identifiers to the dialog identifiers of the turns. */
  function DiaIndex(mems: seq<Memory>, turns: seq<TurnAt>, n: nat): map<string, string>
    requires n <= |mems| && n <= |turns|
  {
    if n == 0 then map[] else DiaIndex(mems, turns, n - 1)[mems[n - 1].id := turns[n - 1].turn.diaId]
  }

  /** What ingesting `n` turns leaves: their memories, an index, and the count. */
  ghost predicate Ingested(memories: Store, memToDia: map<string, string>, turnCount: nat,
                           mems: seq<Memory>, turns: seq<TurnAt>, n: int)
  {
    && 0 <= n <= |mems| == |turns|
    && memories == Stored(mems, n)
    && memToDia == DiaIndex(mems, turns, n)
    && turnCount == n
    && DistinctIds(mems[..n])
  }

  lemma NextIdIsDistinct(mems: seq<Memory>, n: nat)
    requires n < |mems| && DistinctIds(mems[..n])
    ensures DistinctIds(mems[..n + 1]) <==> mems[n].id !in Stored(mems, n)
  {
    StoredKeys(mems, n, mems[n].id);
    assert forall i :: 0 <= i < n ==> mems[..n + 1][i] == mems[..n][i];
    if exists i :: 0 <= i < n && mems[i].id == mems[n].id {
      var i :| 0 <= i < n && mems[i].id == mems[n].id;
      assert mems[..n + 1][i].id == mems[..n + 1][n].id;
    }
  }

  lemma {:induction false} StoredKeys(mems: seq<Memory>, n: nat, id: string)
    requires n <= |mems|
    ensures id in Stored(mems, n) <==> exists i :: 0 <= i < n && mems[i].id == id
    ensures id in Stored(mems, n) ==> Stored(mems, n)[id].id == id && Stored(mems, n)[id] in mems
  {
    if n != 0 {
      StoredKeys(mems, n - 1, id);
    }
  }

  lemma {:induction false} StoredAt(mems: seq<Memory>, n: nat, i: nat)
    requires DistinctIds(mems) && i < n <= |mems|
    ensures mems[i].id in Stored(mems, n) && Stored(mems, n)[mems[i].id] == mems[i]
  {
    if i < n - 1 {
      StoredAt(mems, n - 1, i);
    }
  }

  class IngestedSample {
    const sampleId: string
    const provider: Provider
    var memToDiaId: map<string, string>
    var turnCount: nat

    constructor (sampleId: string)
      ensures this.sampleId == sampleId && fresh(provider)
      ensures provider.memories == map[] && memToDiaId == map[] && turnCount == 0
    {
      this.sampleId := sampleId;
      memToDiaId, turnCount := map[], 0;
      provider := new Provider();
    }

    /** Store one memory and index it. */
    method Add(mem: Memory, diaId: string) returns (r: Outcome<StoreError>)
      modifies this`memToDiaId, this`turnCount, provider
      ensures r.Pass? <==> mem.id !in old(provider.memories)
      ensures r.Fail? ==> r == Fail(MemoryExists(mem.id)) && provider.memories == old(provider.memories)
      ensures r.Pass? ==>
        && provider.memories == old(provider.memories)[mem.id := mem]
        && memToDiaId == old(memToDiaId)[mem.id := diaId]
        && turnCount == old(turnCount) + 1
    {
      r := provider.Write(mem);
      if r.Fail? {
        return;
      }
      memToDiaId := memToDiaId[mem.id := diaId];
      turnCount := turnCount + 1;
    }
  }

  /** The first `n` turns are in the sample's store, and nothing else. */
  ghost predicate HasIngested(s: IngestedSample, mems: seq<Memory>, turns: seq<TurnAt>, n: int)
    reads s, s.provider
  {
    Ingested(s.provider.memories, s.memToDiaId, s.turnCount, mems, turns, n)
  }

  /** Store the memory that comes next. */
  method AddNext(s: IngestedSample, mem: Memory, diaId: string, ghost mems: seq<Memory>, ghost turns: seq<TurnAt>)
    returns (r: Outcome<StoreError>)
    requires HasIngested(s, mems, turns, s.turnCount) && s.turnCount < |mems|
    requires mem == mems[s.turnCount] && diaId == turns[s.turnCount].turn.diaId
    modifies s`memToDiaId, s`turnCount, s.provider
    ensures r.Fail? ==> !DistinctIds(mems)
    ensures r.Pass? ==> HasIngested(s, mems, turns, old(s.turnCount) + 1)
  {
    StoredKeys(mems, s.turnCount, mem.id);
    NextIdIsDistinct(mems, s.turnCount);
    r := s.Add(mem, diaId);
  }

  /** The memory of a turn of the sample is in its place. */
  ghost predicate TurnInOrder(sample: Sample, env: Environment, s: nat, i: nat, mems: seq<Memory>, turns: seq<TurnAt>)
    requires IsTurn(sample, s, i)
  {
    var n, at := |TurnsOf(sample.sessions[..s])| + i, TurnAt(s, i, sample.sessions[s].turns[i]);
    n < |mems| == |turns| && turns[n] == at && mems[n] == BasicMemory(sample, env, at, n)
  }

  predicate IsTurn(sample: Sample, s: nat, i: nat) {
    s < |sample.sessions| && i < |sample.sessions[s].turns|
  }

  ghost predicate AllInOrder(sample: Sample, env: Environment, mems: seq<Memory>, turns: seq<TurnAt>) {
    forall s: nat, i: nat | IsTurn(sample, s, i) :: TurnInOrder(sample, env, s, i, mems, turns)
  }

  lemma BasicTurnsInOrder(sample: Sample, env: Environment)
    ensures AllInOrder(sample, env, BasicMemories(sample, env), TurnsOf(sample.sessions))
  {
    forall s: nat, i: nat | IsTurn(sample, s, i)
      ensures TurnInOrder(sample, env, s, i, BasicMemories(sample, env), TurnsOf(sample.sessions))
    {
      TurnAtIndex(sample.sessions, s, i);
    }
  }

  method StoreTurn(result: IngestedSample, sample: Sample, env: Environment, s: nat, i: nat,
                   ghost mems: seq<Memory>, ghost turns: seq<TurnAt>)
    returns (r: Outcome<StoreError>)
    requires IsTurn(sample, s, i) && TurnInOrder(sample, env, s, i, mems, turns)
    requires HasIngested(result, mems, turns, |TurnsOf(sample.sessions[..s])| + i)
    modifies result`memToDiaId, result`turnCount, result.provider
    ensures r.Fail? ==> !DistinctIds(mems)
    ensures r.Pass? ==> HasIngested(result, mems, turns, |TurnsOf(sample.sessions[..s])| + i + 1)
  {
    var turn := sample.sessions[s].turns[i];
    var mem := BasicMemory(sample, env, TurnAt(s, i, turn), result.turnCount);
    r := AddNext(result, mem, turn.diaId, mems, turns);
  }

  /** One memory per turn, in order; it fails exactly if identifiers repeat. */
  method Ingest(sample: Sample, env: Environment) returns (r: Result<IngestedSample, StoreError>)
    ensures r.Ok? <==> FreshIds(env, |TurnsOf(sample.sessions)|)
    ensures r.Ok? ==>
      && fresh(r.value) && fresh(r.value.provider)
      && r.value.sampleId == sample.sampleId
      && HasIngested(r.value, BasicMemories(sample, env), TurnsOf(sample.sessions), |TurnsOf(sample.sessions)|)
  {
    BasicTurnsInOrder(sample, env);
    BasicIdsAreFresh(sample, env);
    assert BasicMemories(sample, env)[..|TurnsOf(sample.sessions)|] == BasicMemories(sample, env);
    r := IngestTurns(sample, env, BasicMemories(sample, env), TurnsOf(sample.sessions));
  }

  method IngestTurns(sample: Sample, env: Environment, ghost mems: seq<Memory>, ghost turns: seq<TurnAt>)
    returns (r: Result<IngestedSample, StoreError>)
    requires AllInOrder(sample, env, mems, turns) && |mems| == |turns|
    ensures r.Err? ==> !DistinctIds(mems)
    ensures r.Ok? ==>
      && fresh(r.value) && fresh(r.value.provider)
      && r.value.sampleId == sample.sampleId
      && HasIngested(r.value, mems, turns, |TurnsOf(sample.sessions)|)
  {
    var result := new IngestedSample(sample.sampleId);
    for s := 0 to |sample.sessions|
      invariant fresh(result) && fresh(result.provider)
      invariant HasIngested(result, mems, turns, |TurnsOf(sample.sessions[..s])|)
    {
      assert sample.sessions[..s + 1][..s] == sample.sessions[..s];
      for i := 0 to |sample.sessions[s].turns|
        invariant fresh(result) && fresh(result.provider)
        invariant HasIngested(result, mems, turns, |TurnsOf(sample.sessions[..s])| + i)
      {
        assert IsTurn(sample, s, i);
        var stored := StoreTurn(result, sample, env, s, i, mems, turns);
        if stored.Fail? {
          return Err(stored.error);
        }
      }
    }
    assert sample.sessions[..|sample.sessions|] == sample.sessions;
    r := Ok(result);
  }
}
