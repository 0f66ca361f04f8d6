/** Jobs and the state changes the execution plane makes to them.
    Times and durations are nanoseconds; time 0 is Go's zero time. */
module Jobs {
  import opened Graphs

  type Time = int

  const MILLISECOND: int := 1_000_000
  const MAX_INT64: int := 0x7FFF_FFFF_FFFF_FFFF

  datatype JobState = Pending | Running | Completed | Failed | Retrying

  datatype Record = Record(
    id: Id, jobType: string, payload: string, state: JobState, result: string, error: string,
    attempts: int, maxAttempts: int, createdAt: Time, startedAt: Time, finishedAt: Time, runAfter: Time)

  datatype JobOption = WithMaxAttempts(n: int) | WithRunAfter(t: Time) | WithResult(r: string)

  function ApplyOption(j: Record, o: JobOption): Record {
    match o
    case WithMaxAttempts(n) => j.(maxAttempts := n)
    case WithRunAfter(t) => j.(runAfter := t)
    case WithResult(r) => j.(result := r)
  }

  function ApplyOptions(j: Record, opts: seq<JobOption>): Record {
    if opts == [] then j
    else ApplyOption(ApplyOptions(j, opts[..|opts| - 1]), opts[|opts| - 1])
  }

  function Blank(id: Id, jobType: string, payload: string, now: Time): Record {
    Record(id, jobType, payload, Pending, "", "", 0, 3, now, 0, 0, 0)
  }

  /** Never started: what `NewJob` returns, whatever the options. */
  predicate Fresh(j: Record) {
    j.state == Pending && j.attempts == 0
  }

  lemma {:induction false} OptionsKeepFresh(j: Record, opts: seq<JobOption>)
    requires Fresh(j)
    ensures var k := ApplyOptions(j, opts);
            Fresh(k) && k == j.(maxAttempts := k.maxAttempts, runAfter := k.runAfter, result := k.result)
  {
    if opts != [] {
      OptionsKeepFresh(j, opts[..|opts| - 1]);
    }
  }

  predicate SameKind(a: JobOption, b: JobOption) {
    a.WithMaxAttempts? == b.WithMaxAttempts? && a.WithRunAfter? == b.WithRunAfter?
  }

  /** What an option asks for is what a record has. */
  predicate InForce(j: Record, o: JobOption) {
    match o
    case WithMaxAttempts(n) => j.maxAttempts == n
    case WithRunAfter(t) => j.runAfter == t
    case WithResult(r) => j.result == r
  }

  /** Of the options of a kind the last one given is in force. */
  lemma {:induction false} LastOptionWins(j: Record, opts: seq<JobOption>, i: nat)
    requires i < |opts| && forall k :: i < k < |opts| ==> !SameKind(opts[k], opts[i])
    ensures InForce(ApplyOptions(j, opts), opts[i])
    decreases |opts|
  {
    var n := |opts| - 1;
    if i < n {
      assert opts[..n][i] == opts[i];
      LastOptionWins(j, opts[..n], i);
      assert !SameKind(opts[n], opts[i]);
    }
  }

  /** Without an option of a kind the default stays. */
  lemma {:induction false} DefaultsStay(j: Record, opts: seq<JobOption>)
    ensures var k := ApplyOptions(j, opts);
      && (k.maxAttempts == j.maxAttempts || exists o :: o in opts && o.WithMaxAttempts?)
      && (k.runAfter == j.runAfter || exists o :: o in opts && o.WithRunAfter?)
      && (k.result == j.result || exists o :: o in opts && o.WithResult?)
  {
    if opts != [] {
      var n := |opts| - 1;
      DefaultsStay(j, opts[..n]);
      assert opts == opts[..n] + [opts[n]];
    }
  }

  // ---- Lifecycle ----

  /** Two's complement truncation of an int64 result. */
  function Wrap64(x: int): int {
    (x + 0x8000_0000_0000_0000) % 0x1_0000_0000_0000_0000 - 0x8000_0000_0000_0000
  }

  /** The delay before the retry that follows attempt `n`, as the int64 product
      is computed: quadratic in the attempt number. */
  function Backoff(n: int): int {
    Wrap64(Wrap64(Wrap64(n * n) * 100) * MILLISECOND)
  }

  predicate Due(j: Record, now: Time) {
    j.runAfter == 0 || now >= j.runAfter
  }

  function Begin(j: Record, now: Time): Record {
    j.(state := Running, attempts := j.attempts + 1, startedAt := now)
  }

  function Succeed(j: Record, now: Time): Record {
    j.(state := Completed, finishedAt := now)
  }

  /** A failed attempt: `retryFrom` is the later of the two clock readings. */
  function FailAttempt(j: Record, error: string, now: Time, retryFrom: Time): Record {
    if j.attempts < j.maxAttempts then
      j.(error := error, state := Retrying, finishedAt := now, runAfter := retryFrom + Backoff(j.attempts))
    else
      j.(error := error, state := Failed, finishedAt := now)
  }

  predicate Terminal(s: JobState) {
    s == Completed || s == Failed
  }

  lemma WrapInRange(x: int)
    ensures Wrap64(x) == x <==> -0x8000_0000_0000_0000 <= x <= MAX_INT64
    ensures -0x8000_0000_0000_0000 <= Wrap64(x) <= MAX_INT64
  {
  }

  lemma SquareMonotone(a: int, b: int)
    requires 0 <= a <= b
    ensures a * a <= b * b
  {
  }

  /** Reducing a product after each factor or once at the end is the same. */
  lemma WrapTwice(x: int, c: int)
    ensures Wrap64(Wrap64(x) * c) == Wrap64(x * c)
  {
    var m := 0x1_0000_0000_0000_0000;
    var q := (x + 0x8000_0000_0000_0000) / m;
    assert Wrap64(x) * c == x * c - (q * c) * m by {
      assert Wrap64(x) == x - q * m;
      assert (x - q * m) * c == x * c - (q * c) * m;
    }
    WrapShift(x * c, q * c);
  }

  lemma WrapShift(x: int, k: int)
    ensures Wrap64(x - k * 0x1_0000_0000_0000_0000) == Wrap64(x)
  {
  }

  /** The product is exact for attempts up to 303700 and for no larger attempt. */
  lemma BackoffExactIff(n: int)
    requires n >= 0
    ensures Backoff(n) == n * n * 100_000_000 <==> n <= 303700
  {
    WrapTwice(n * n, 100);
    WrapTwice(n * n * 100, MILLISECOND);
    assert Backoff(n) == Wrap64(n * n * 100 * MILLISECOND);
    WrapInRange(n * n * 100 * MILLISECOND);
    if n <= 303700 {
      SquareMonotone(n, 303700);
    } else {
      SquareMonotone(303701, n);
    }
  }

  /** Attempt 303701 would schedule its retry in the past. */
  lemma BackoffOverflowExample()
    ensures Backoff(303701) < 0
  {
    WrapTwice(303701 * 303701, 100);
    WrapTwice(303701 * 303701 * 100, MILLISECOND);
    assert Backoff(303701) == Wrap64(9223429740100000000 + 0) by {
      assert 303701 * 303701 * 100 * MILLISECOND == 9223429740100000000;
    }
  }

  /** A job as the plane shares it: one object, changed in place. */
  class Job {
    const id: Id
    const jobType: string
    const payload: string
    var state: JobState
    var result: string
    var error: string
    var attempts: int
    var maxAttempts: int
    var createdAt: Time
    var startedAt: Time
    var finishedAt: Time
    var runAfter: Time

    function Value(): Record
      reads this
    {
      Record(id, jobType, payload, state, result, error,
             attempts, maxAttempts, createdAt, startedAt, finishedAt, runAfter)
    }

    /** `NewJob`: the identifier and the clock reading come from outside. */
    constructor (freshId: Id, jobType: string, payload: string, opts: seq<JobOption>, now: Time)
      ensures Value() == ApplyOptions(Blank(freshId, jobType, payload, now), opts)
      ensures Fresh(Value())
      ensures id == freshId && error == "" && createdAt == now && startedAt == finishedAt == 0
      ensures this.jobType == jobType && this.payload == payload
      ensures forall i :: 0 <= i < |opts| && (forall k :: i < k < |opts| ==> !SameKind(opts[k], opts[i])) ==>
        InForce(Value(), opts[i])
      ensures (forall o :: o in opts ==> !o.WithMaxAttempts?) ==> maxAttempts == 3
      ensures (forall o :: o in opts ==> !o.WithRunAfter?) ==> runAfter == 0
      ensures (forall o :: o in opts ==> !o.WithResult?) ==> result == ""
    {
      this.id, this.jobType, this.payload := freshId, jobType, payload;
      state, result, error, attempts, maxAttempts := Pending, "", "", 0, 3;
      createdAt, startedAt, finishedAt, runAfter := now, 0, 0, 0;
      new;
      var blank := Blank(freshId, jobType, payload, now);
      for i := 0 to |opts|
        invariant Value() == ApplyOptions(blank, opts[..i])
      {
        assert opts[..i + 1][..i] == opts[..i];
        match opts[i] {
          case WithMaxAttempts(n) => maxAttempts := n;
          case WithRunAfter(t) => runAfter := t;
          case WithResult(r) => result := r;
        }
      }
      assert opts[..|opts|] == opts;
      OptionsKeepFresh(blank, opts);
      DefaultsStay(blank, opts);
      forall i | 0 <= i < |opts| && forall k :: i < k < |opts| ==> !SameKind(opts[k], opts[i])
        ensures InForce(ApplyOptions(blank, opts), opts[i])
      {
        LastOptionWins(blank, opts, i);
      }
    }
  }
}
