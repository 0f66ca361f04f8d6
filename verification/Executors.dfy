/** The agent executor: a retry loop with a deadline per attempt and a doubling
    wait between attempts. Times are nanoseconds. */
module Executors {
  import opened Results
  import J = Jobs

  datatype AgentState = Created | Running | Done | Failed | TimedOut

  datatype ContextError = Canceled | DeadlineExceeded

  datatype ExecError<+E> = FromContext(context: ContextError) | FromFunc(error: E)

  /** How a call of the agent's function ends; a failure may come after its
      attempt's deadline has passed. */
  datatype Call<+V, +E> = Success(value: V) | Failure(error: E, pastDeadline: bool)

  /** The fields of an agent that an execution changes. */
  datatype Fields<+V, +E> = Fields(state: AgentState, result: Option<V>, error: Option<E>, finishedAt: int)

  /** The surroundings of one execution, by attempt number from 0: how the call
      ends, how long it takes and what it makes of the agent it is given; whether
      the wait before it is cut off by the context, and how long it lasts beyond
      what was asked, or in all if it is cut off. */
  datatype Environment<!V, !E> = Environment(
    call: nat -> Call<V, E>, duration: nat -> nat, effect: (nat, Fields<V, E>) -> Fields<V, E>,
    cutOff: nat -> Option<ContextError>, lateness: nat -> nat)

  // ---- The wait before an attempt ----

  const BASE: int := 100 * J.MILLISECOND

  function Pow2(n: nat): (p: nat)
    ensures p >= 1
  {
    if n == 0 then 1 else 2 * Pow2(n - 1)
  }

  /** The int64 product of the base delay and a shifted one. */
  function Backoff(attempt: int): int
    requires attempt >= 1
  {
    J.Wrap64(BASE * J.Wrap64(Pow2(attempt - 1)))
  }

  /** A timer with a duration below 1 fires at once. */
  function Wait(attempt: int): nat {
    if attempt >= 1 && Backoff(attempt) > 0 then Backoff(attempt) else 0
  }

  /** The sum of the waits before an attempt and those before it. */
  function TotalWait(attempt: nat): nat {
    if attempt == 0 then 0 else TotalWait(attempt - 1) + Wait(attempt)
  }

  lemma BackoffIsWrapped(attempt: int)
    requires attempt >= 1
    ensures Backoff(attempt) == J.Wrap64(BASE * Pow2(attempt - 1))
  {
    J.WrapTwice(Pow2(attempt - 1), BASE);
  }

  lemma {:induction false} Pow2Grows(a: nat, b: nat)
    requires a <= b
    ensures Pow2(a) <= Pow2(b)
  {
    if a < b {
      Pow2Grows(a, b - 1);
    }
  }

  lemma Pow2Of36()
    ensures Pow2(36) == 0x10_0000_0000
  {
    assert Pow2(9) == 0x200;
    assert Pow2(18) == 0x4_0000;
    assert Pow2(27) == 0x800_0000;
  }

  /** The wait doubles exactly as long as the attempt number is at most 37. */
  lemma BackoffExactIff(attempt: int)
    requires attempt >= 1
    ensures Backoff(attempt) == 100_000_000 * Pow2(attempt - 1) <==> attempt <= 37
  {
    BackoffIsWrapped(attempt);
    J.WrapInRange(BASE * Pow2(attempt - 1));
    Pow2Of36();
    if attempt <= 37 {
      Pow2Grows(attempt - 1, 36);
    } else {
      Pow2Grows(37, attempt - 1);
    }
  }

  /** A wait is never longer than the doubled one, and as long up to attempt 37. */
  lemma WaitExactIff(attempt: int)
    requires attempt >= 1
    ensures Wait(attempt) <= 100_000_000 * Pow2(attempt - 1)
    ensures Wait(attempt) == 100_000_000 * Pow2(attempt - 1) <==> attempt <= 37
  {
    BackoffExactIff(attempt);
    BackoffIsWrapped(attempt);
    J.WrapInRange(BASE * Pow2(attempt - 1));
  }

  /** Two bounded parts add up to the bound of the sum only if both are exact. */
  lemma PartsAddUp(b: int, p: int, total: int, part: int)
    requires total <= b * (p - 1) && part <= b * p
    ensures total + part <= b * (2 * p - 1)
    ensures total + part == b * (2 * p - 1) <==> total == b * (p - 1) && part == b * p
  {
    assert b * (2 * p - 1) == b * (p - 1) + b * p;
  }

  /** Before attempt k there were 100·(2^k - 1) milliseconds of waiting in all,
      for k up to 37 and for no larger k: later products overflow. */
  lemma {:induction false} TotalWaitIsGeometricIff(attempt: nat)
    ensures TotalWait(attempt) <= 100_000_000 * (Pow2(attempt) - 1)
    ensures TotalWait(attempt) == 100_000_000 * (Pow2(attempt) - 1) <==> attempt <= 37
  {
    if attempt > 0 {
      TotalWaitIsGeometricIff(attempt - 1);
      WaitExactIff(attempt);
      PartsAddUp(BASE, Pow2(attempt - 1), TotalWait(attempt - 1), Wait(attempt));
      assert Pow2(attempt) == 2 * Pow2(attempt - 1);
    }
  }

  lemma {:induction false} Pow2Splits(a: nat, b: nat)
    ensures Pow2(a + b) == Pow2(a) * Pow2(b)
  {
    if b > 0 {
      Pow2Splits(a, b - 1);
    }
  }

  lemma Pow2Of56()
    ensures Pow2(56) == 0x100_0000_0000_0000
  {
    Pow2Of36();
    Pow2Splits(36, 20);
    Pow2Splits(10, 10);
    assert Pow2(10) == 0x400;
  }

  lemma WrapOfMultiple(k: int)
    ensures J.Wrap64(k * 0x1_0000_0000_0000_0000) == 0
  {
  }

  /** From attempt 57 on the product is zero: retries follow without a wait. */
  lemma NoWaitFrom57(attempt: int)
    requires attempt >= 57
    ensures Wait(attempt) == 0
  {
    var rest := Pow2(attempt - 57);
    assert Pow2(attempt - 1) == 0x100_0000_0000_0000 * rest by {
      Pow2Of56();
      Pow2Splits(56, attempt - 57);
    }
    assert Backoff(attempt) == J.Wrap64(BASE * (0x100_0000_0000_0000 * rest)) by {
      BackoffIsWrapped(attempt);
    }
    WrapOfMultiple(390625 * rest);
  }

  /** The first overflow: attempt 38 starts at once. */
  lemma WaitOverflowExample()
    ensures Backoff(38) < 0 && Wait(38) == 0
  {
    Pow2Of36();
    BackoffIsWrapped(38);
    assert Pow2(37) == 2 * Pow2(36);
  }

  // ---- How an execution can end ----

  datatype Exit<V, E> =
    | Completed(attempt: nat, value: V)
    | CutOff(attempt: nat, error: ContextError)
    | PastDeadline(attempt: nat)
    | Exhausted

  /** The attempt is made and fails in a way that is retried. */
  predicate FailsPlainly<V, E>(env: Environment<V, E>, k: nat) {
    && (k > 0 ==> env.cutOff(k).None?)
    && env.call(k).Failure? && !env.call(k).pastDeadline
  }

  ghost predicate AllFailPlainly<V(!new), E(!new)>(env: Environment<V, E>, n: int) {
    forall k :: 0 <= k < n ==> FailsPlainly(env, k)
  }

  /** Every earlier attempt failed plainly and then this happened. */
  ghost predicate IsExit<V(!new), E(!new)>(env: Environment<V, E>, maxRetries: int, exit: Exit<V, E>) {
    match exit
    case Completed(k, v) =>
      k <= maxRetries && AllFailPlainly(env, k) && (k > 0 ==> env.cutOff(k).None?) && env.call(k) == Success(v)
    case CutOff(k, e) =>
      0 < k <= maxRetries && AllFailPlainly(env, k) && env.cutOff(k) == Some(e)
    case PastDeadline(k) =>
      k <= maxRetries && AllFailPlainly(env, k) && (k > 0 ==> env.cutOff(k).None?)
      && env.call(k).Failure? && env.call(k).pastDeadline
    case Exhausted =>
      AllFailPlainly(env, maxRetries + 1)
  }

  /** The first attempt that does not fail plainly, or the one after the last. */
  function StopOf<V, E>(exit: Exit<V, E>, maxRetries: int): int {
    if exit.Exhausted? then maxRetries + 1 else exit.attempt
  }

  lemma StopsAtFirst<V(!new), E(!new)>(env: Environment<V, E>, maxRetries: int, x: Exit<V, E>, k: nat)
    requires IsExit(env, maxRetries, x)
    ensures k < StopOf(x, maxRetries) ==> FailsPlainly(env, k)
    ensures k == StopOf(x, maxRetries) <= maxRetries ==> !FailsPlainly(env, k)
    ensures StopOf(x, maxRetries) == maxRetries + 1 <==> x.Exhausted?
  {
  }

  /** The surroundings decide how an execution ends. */
  lemma ExitIsUnique<V(!new), E(!new)>(env: Environment<V, E>, maxRetries: int, x: Exit<V, E>, y: Exit<V, E>)
    requires IsExit(env, maxRetries, x) && IsExit(env, maxRetries, y)
    ensures x == y
  {
    var i, j := StopOf(x, maxRetries), StopOf(y, maxRetries);
    if 0 <= i {
      StopsAtFirst(env, maxRetries, x, i);
      StopsAtFirst(env, maxRetries, y, i);
    }
    if 0 <= j {
      StopsAtFirst(env, maxRetries, x, j);
      StopsAtFirst(env, maxRetries, y, j);
    }
  }

  /** How often the function was called. */
  function CallsOf<V, E>(exit: Exit<V, E>, maxRetries: int): nat {
    match exit
    case Completed(k, _) => k + 1
    case CutOff(k, _) => k
    case PastDeadline(k) => k + 1
    case Exhausted => if maxRetries < 0 then 0 else maxRetries + 1
  }

  function StateOf<V, E>(exit: Exit<V, E>): AgentState {
    match exit
    case Completed(_, _) => Done
    case CutOff(_, _) => TimedOut
    case PastDeadline(_) => TimedOut
    case Exhausted => Failed
  }

  /** The error of the last of `n` failed attempts. */
  function LastError<V, E>(env: Environment<V, E>, n: int): Option<E> {
    if n > 0 && env.call(n - 1).Failure? then Some(env.call(n - 1).error) else None
  }

  /** What is returned; nothing when there was no attempt to fail. */
  function ErrorOf<V, E>(env: Environment<V, E>, maxRetries: int, exit: Exit<V, E>): Option<ExecError<E>> {
    match exit
    case Completed(_, _) => None
    case CutOff(_, e) => Some(FromContext(e))
    case PastDeadline(_) => Some(FromContext(DeadlineExceeded))
    case Exhausted =>
      var last := LastError(env, maxRetries + 1);
      if last.Some? then Some(FromFunc(last.value)) else None
  }

  /** Nil is returned exactly when the agent is done, unless the number of
      retries is negative: then nil comes with a failed agent. */
  lemma NilIffDone<V(!new), E(!new)>(env: Environment<V, E>, maxRetries: int, exit: Exit<V, E>)
    requires IsExit(env, maxRetries, exit)
    ensures (ErrorOf(env, maxRetries, exit).None? <==> StateOf(exit) == Done) <==> maxRetries >= 0
    ensures CallsOf(exit, maxRetries) <= (if maxRetries < 0 then 0 else maxRetries + 1)
  {
    if exit.Exhausted? && maxRetries >= 0 {
      assert FailsPlainly(env, maxRetries);
    }
  }

  /** The agent as the first `n` calls leave it. */
  function AfterCalls<V, E>(env: Environment<V, E>, before: Fields<V, E>, n: nat): Fields<V, E> {
    if n == 0 then before else env.effect(n - 1, AfterCalls(env, before, n - 1).(state := Running))
  }

  /** Attempt `k` is called exactly if it is within the limit, all attempts before
      it failed plainly, and its wait was not cut off. */
  lemma CalledIff<V(!new), E(!new)>(env: Environment<V, E>, maxRetries: int, exit: Exit<V, E>, k: nat)
    requires IsExit(env, maxRetries, exit)
    ensures k < CallsOf(exit, maxRetries)
       <==> k <= maxRetries && AllFailPlainly(env, k) && (k > 0 ==> env.cutOff(k).None?)
  {
    if exit.Exhausted? {
      assert k <= maxRetries ==> FailsPlainly(env, k);
    } else if k > exit.attempt {
      assert !FailsPlainly(env, exit.attempt);
    } else if k < exit.attempt {
      assert FailsPlainly(env, k);
    }
  }

  // ---- Execution ----

  /** Each attempt starts its wait after the call before it has ended. */
  ghost predicate Spaced<V(!new), E(!new)>(env: Environment<V, E>, starts: seq<int>) {
    forall k :: 0 < k < |starts| ==> starts[k] - starts[k - 1] == env.duration(k - 1) + Wait(k) + env.lateness(k)
  }

  /** The calls begin at `start`. */
  ghost predicate Timed<V(!new), E(!new)>(env: Environment<V, E>, start: int, starts: seq<int>) {
    Spaced(env, starts) && (starts != [] ==> starts[0] == start)
  }

  /** When the last of these calls ended. */
  function EndOf<V, E>(env: Environment<V, E>, start: int, starts: seq<int>): int {
    if starts == [] then start else starts[|starts| - 1] + env.duration(|starts| - 1)
  }

  /** What an execution that takes this exit returns and leaves behind. */
  ghost predicate Ends<V(!new), E(!new)>(env: Environment<V, E>, maxRetries: int, before: Fields<V, E>,
                                         exit: Exit<V, E>, err: Option<ExecError<E>>, after: Fields<V, E>) {
    var left := AfterCalls(env, before, CallsOf(exit, maxRetries));
    && IsExit(env, maxRetries, exit)
    && err == ErrorOf(env, maxRetries, exit)
    && after.state == StateOf(exit)
    && after.result == (if exit.Completed? then Some(exit.value) else left.result)
    && after.error == (if exit.Exhausted? then LastError(env, maxRetries + 1) else left.error)
  }

  /** What the caller sees of each exit. A failed execution returns and stores the
      error of its last attempt, number `maxRetries`; with a negative limit there
      is none. */
  lemma HowItEnds<V(!new), E(!new)>(env: Environment<V, E>, maxRetries: int, before: Fields<V, E>,
                                    exit: Exit<V, E>, err: Option<ExecError<E>>, after: Fields<V, E>)
    requires Ends(env, maxRetries, before, exit, err, after)
    ensures after.state == Done <==> exit.Completed?
    ensures after.state == TimedOut <==> exit.CutOff? || exit.PastDeadline?
    ensures after.state == Failed <==> exit.Exhausted?
    ensures exit.Completed? ==>
      err.None? && after.result == Some(exit.value) && env.call(exit.attempt) == Success(exit.value)
    ensures exit.CutOff? ==> env.cutOff(exit.attempt).Some? && err == Some(FromContext(env.cutOff(exit.attempt).value))
    ensures exit.PastDeadline? ==> err == Some(FromContext(DeadlineExceeded))
    ensures exit.Exhausted? && maxRetries >= 0 ==>
      && env.call(maxRetries).Failure?
      && err == Some(FromFunc(env.call(maxRetries).error)) && after.error == Some(env.call(maxRetries).error)
    ensures exit.Exhausted? && maxRetries < 0 ==> err.None? && after.error.None?
  {
    if exit.Exhausted? && maxRetries >= 0 {
      assert FailsPlainly(env, maxRetries);
    }
  }

  lemma EndsCompleted<V(!new), E(!new)>(env: Environment<V, E>, n: int, before: Fields<V, E>, k: nat, v: V, at: int)
    requires IsExit(env, n, Completed(k, v))
    ensures var left := AfterCalls(env, before, k + 1);
      Ends(env, n, before, Completed(k, v), None, left.(state := Done, result := Some(v), finishedAt := at))
  {
  }

  lemma EndsCutOff<V(!new), E(!new)>(env: Environment<V, E>, n: int, before: Fields<V, E>,
                                     k: nat, e: ContextError, at: int)
    requires IsExit(env, n, CutOff(k, e))
    ensures var left := AfterCalls(env, before, k);
      Ends(env, n, before, CutOff(k, e), Some(FromContext(e)), left.(state := TimedOut, finishedAt := at))
  {
  }

  lemma EndsPastDeadline<V(!new), E(!new)>(env: Environment<V, E>, n: int, before: Fields<V, E>, k: nat, at: int)
    requires IsExit(env, n, PastDeadline(k))
    ensures var left := AfterCalls(env, before, k + 1);
      Ends(env, n, before, PastDeadline(k), Some(FromContext(DeadlineExceeded)),
           left.(state := TimedOut, finishedAt := at))
  {
  }

  lemma EndsExhausted<V(!new), E(!new)>(env: Environment<V, E>, n: int, before: Fields<V, E>, at: int)
    requires IsExit(env, n, Exhausted)
    ensures var left, last := AfterCalls(env, before, if n < 0 then 0 else n + 1), LastError(env, n + 1);
      Ends(env, n, before, Exhausted, if last.Some? then Some(FromFunc(last.value)) else None,
           left.(state := Failed, error := last, finishedAt := at))
  {
  }

  lemma NoneStarted<V(!new), E(!new)>(env: Environment<V, E>, start: int)
    ensures Timed(env, start, []) && EndOf(env, start, []) == start
  {
  }

  lemma TimedNext<V(!new), E(!new)>(env: Environment<V, E>, start: int, starts: seq<int>, pause: nat)
    requires Timed(env, start, starts)
    requires pause == if starts == [] then 0 else Wait(|starts|) + env.lateness(|starts|)
    ensures var s := EndOf(env, start, starts) + pause;
      Timed(env, start, starts + [s]) && EndOf(env, start, starts + [s]) == s + env.duration(|starts|)
  {
  }

  /** At least 100·(2^k - 1) milliseconds pass before attempt k, for k up to 37. */
  lemma {:induction false} AttemptsAreSpaced<V(!new), E(!new)>(env: Environment<V, E>, starts: seq<int>, k: nat)
    requires Spaced(env, starts) && k < |starts|
    ensures starts[k] - starts[0] >= TotalWait(k)
    ensures k <= 37 ==> starts[k] - starts[0] >= 100_000_000 * (Pow2(k) - 1)
  {
    if k > 0 {
      AttemptsAreSpaced(env, starts, k - 1);
    }
    TotalWaitIsGeometricIff(k);
  }

  /** Nothing takes time before attempt `k` but the waits. */
  ghost predicate Instant<V(!new), E(!new)>(env: Environment<V, E>, k: nat) {
    forall i :: 0 <= i < k ==> env.duration(i) == 0 && env.lateness(i + 1) == 0
  }

  /** Where nothing else takes time, the waits keep attempt k that far from the
      first exactly for k up to 37. */
  lemma {:induction false} SpacingHoldsIff<V(!new), E(!new)>(env: Environment<V, E>, starts: seq<int>, k: nat)
    requires Spaced(env, starts) && k < |starts| && Instant(env, k)
    ensures starts[k] - starts[0] == TotalWait(k)
    ensures starts[k] - starts[0] >= 100_000_000 * (Pow2(k) - 1) <==> k <= 37
  {
    if k > 0 {
      SpacingHoldsIff(env, starts, k - 1);
    }
    TotalWaitIsGeometricIff(k);
  }

  class Agent<V(0), E(0)> {
    var state: AgentState
    var result: Option<V>
    var error: Option<E>
    var finishedAt: int

    constructor ()
      ensures state == Created && result == None && error == None
    {
      state, result, error, finishedAt := Created, None, None, 0;
    }

    function Value(): Fields<V, E>
      reads this
    {
      Fields(state, result, error, finishedAt)
    }

    /** The agent's function is called with the running agent, and may change it. */
    method Run(env: Environment<V, E>, attempt: nat) returns (call: Call<V, E>)
      modifies this
      ensures Value() == env.effect(attempt, old(Value()).(state := Running)) && call == env.call(attempt)
    {
      state := Running;
      var left := env.effect(attempt, Value());
      state, result, error, finishedAt := left.state, left.result, left.error, left.finishedAt;
      call := env.call(attempt);
    }
  }

  class Executor {
    var maxRetries: int

    constructor (maxRetries: int)
      ensures this.maxRetries == maxRetries
    {
      this.maxRetries := maxRetries;
    }

    /** Runs the agent's function until it succeeds, its deadline passes, a wait
        is cut off, or the retries are used up. `starts` are the times at which
        it was called. */
    method Execute<V(!new, 0), E(!new, 0)>(agent: Agent<V, E>, env: Environment<V, E>, start: int)
      returns (err: Option<ExecError<E>>, ghost exit: Exit<V, E>, ghost starts: seq<int>)
      modifies agent
      ensures Ends(env, maxRetries, old(agent.Value()), exit, err, agent.Value())
      ensures |starts| == CallsOf(exit, maxRetries)
      ensures Timed(env, start, starts)
      ensures agent.finishedAt
           == EndOf(env, start, starts) + (if exit.CutOff? then env.lateness(exit.attempt) else 0)
    {
      hide Spaced, Wait, Backoff, Timed, EndOf, Ends;
      ghost var before := agent.Value();
      var lastErr: Option<E> := None;
      var now := start;
      NoneStarted(env, start);
      starts := [];
      var attempt := 0;
      while attempt <= maxRetries
        invariant 0 <= attempt && (attempt <= maxRetries + 1 || attempt == 0)
        invariant AllFailPlainly(env, attempt)
        invariant lastErr == LastError(env, attempt)
        invariant agent.Value() == AfterCalls(env, before, attempt)
        invariant |starts| == attempt && Timed(env, start, starts) && now == EndOf(env, start, starts)
      {
        var pause := 0;
        if attempt > 0 {
          var cut := env.cutOff(attempt);
          if cut.Some? {
            agent.state := TimedOut;
            agent.finishedAt := now + env.lateness(attempt);
            exit := CutOff(attempt, cut.value);
            EndsCutOff(env, maxRetries, before, attempt, cut.value, agent.finishedAt);
            return Some(FromContext(cut.value)), exit, starts;
          }
          pause := Wait(attempt) + env.lateness(attempt);
        }
        TimedNext(env, start, starts, pause);
        starts := starts + [now + pause];
        var call := agent.Run(env, attempt);
        now := now + pause + env.duration(attempt);
        if call.Success? {
          agent.state := Done;
          agent.result := Some(call.value);
          agent.finishedAt := now;
          exit := Completed(attempt, call.value);
          EndsCompleted(env, maxRetries, before, attempt, call.value, now);
          return None, exit, starts;
        }
        if call.pastDeadline {
          agent.state := TimedOut;
          agent.finishedAt := now;
          exit := PastDeadline(attempt);
          EndsPastDeadline(env, maxRetries, before, attempt, now);
          return Some(FromContext(DeadlineExceeded)), exit, starts;
        }
        assert FailsPlainly(env, attempt);
        lastErr := Some(call.error);
        attempt := attempt + 1;
      }
      agent.state := Failed;
      agent.error := lastErr;
      agent.finishedAt := now;
      exit := Exhausted;
      EndsExhausted(env, maxRetries, before, now);
      err := if lastErr.Some? then Some(FromFunc(lastErr.value)) else None;
    }
  }
}
