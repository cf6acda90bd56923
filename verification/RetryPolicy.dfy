/** How a provider failure is classified, and what that says about the claim. */
module FailurePolicy {
  import opened Domain

  datatype Certainty = Ambiguous | DefinitiveRejection | NotStarted

  datatype Decision = Decision(retryable: bool, countsTowardCircuitBreaker: bool, outcome: Certainty)

  const RETRYABLE_SERVER_STATUSES: set<nat> := {500, 502, 503, 504}

  /** The two error classes on which the use case gives its claim back. */
  predicate ReleasesClaim(error: ProviderError) {
    error.Rejected? || error.CircuitOpen?
  }

  function Classify(error: ProviderError): (d: Decision)
    // A retry is only ever made while the side effect is in doubt.
    ensures d.retryable || d.countsTowardCircuitBreaker ==> d.outcome.Ambiguous?
    ensures ReleasesClaim(error) <==> !d.outcome.Ambiguous?
  {
    match error
    case CircuitOpen => Decision(false, false, NotStarted)
    case Rejected(_) => Decision(false, false, DefinitiveRejection)
    case RateLimited => Decision(true, false, Ambiguous)
    case ServerFailed(status) => Decision(status in RETRYABLE_SERVER_STATUSES, true, Ambiguous)
    case TimedOut => Decision(true, true, Ambiguous)
    case NetworkFailed => Decision(true, true, Ambiguous)
    case Unavailable => Decision(true, true, Ambiguous)
    case InvalidResponse => Decision(false, true, Ambiguous)
    case Unrecognized => Decision(false, false, Ambiguous)
  }

  /** Which errors are tried again, which the breaker counts, and which leave no doubt. */
  lemma ClassifiedByClass(error: ProviderError)
    ensures Classify(error).retryable <==>
      || error.TimedOut? || error.NetworkFailed? || error.Unavailable? || error.RateLimited?
      || (error.ServerFailed? &&
          (error.status == 500 || error.status == 502 || error.status == 503 || error.status == 504))
    ensures Classify(error).countsTowardCircuitBreaker <==>
      || error.TimedOut? || error.NetworkFailed? || error.Unavailable?
      || error.ServerFailed? || error.InvalidResponse?
    ensures Classify(error).outcome.DefinitiveRejection? <==> error.Rejected?
    ensures Classify(error).outcome.NotStarted? <==> error.CircuitOpen?
    ensures ReleasesClaim(error) <==> error.Rejected? || error.CircuitOpen?
  {}
}

/** Bounded exponential backoff with jitter, and the worst case it implies. */
module RetryPolicy {
  import opened Arithmetic
  import opened Domain
  import opened FailurePolicy

  datatype RetryConfig = RetryConfig(
    maxAttempts: int,
    attemptTimeoutMs: int,
    baseDelayMs: int,
    maxDelayMs: int,
    jitterRatio: real)

  predicate SafeInteger(value: int, minimum: int) {
    minimum <= value <= MAX_SAFE_INTEGER
  }

  predicate ValidRetry(c: RetryConfig) {
    && SafeInteger(c.maxAttempts, 1) && c.maxAttempts <= 10
    && SafeInteger(c.attemptTimeoutMs, 1)
    && SafeInteger(c.baseDelayMs, 0)
    && SafeInteger(c.maxDelayMs, 0)
    && c.baseDelayMs <= c.maxDelayMs
    && 0.0 <= c.jitterRatio <= 1.0
  }

  predicate ValidRandom(random: real) {
    0.0 <= random <= 1.0
  }

  predicate ShouldRetry(c: RetryConfig, error: ProviderError, failedAttempt: int) {
    failedAttempt < c.maxAttempts && Classify(error).retryable
  }

  function Pow2(n: nat): (p: int)
    ensures p >= 1
  {
    if n == 0 then 1 else 2 * Pow2(n - 1)
  }

  /** `Math.round`: halves go up. */
  function Round(x: real): int {
    (x + 0.5).Floor
  }

  /** The delay before jitter, rounding and the cap. */
  function Exponential(c: RetryConfig, failedAttempt: int): int
    requires failedAttempt >= 1
  {
    c.baseDelayMs * Pow2(failedAttempt - 1)
  }

  function Jittered(c: RetryConfig, failedAttempt: int, random: real): real
    requires failedAttempt >= 1
  {
    (Exponential(c, failedAttempt) as real) * (1.0 + c.jitterRatio * random)
  }

  function DelayAfter(c: RetryConfig, failedAttempt: int, random: real): int
    requires failedAttempt >= 1
  {
    Min(c.maxDelayMs, Round(Jittered(c, failedAttempt, random)))
  }

  function MaximumRetryDelayAfter(c: RetryConfig, failedAttempt: int): int
    requires failedAttempt >= 1
  {
    DelayAfter(c, failedAttempt, 1.0)
  }

  lemma ProductMonotone(a: real, b: real, x: real, y: real)
    requires 0.0 <= a <= b && 0.0 <= x <= y
    ensures 0.0 <= a * x <= b * y
  {
    assert a * x <= b * x;
    assert b * x <= b * y;
  }

  lemma {:induction false} Pow2Monotone(m: nat, n: nat)
    requires m <= n
    ensures Pow2(m) <= Pow2(n)
  {
    if m < n {
      Pow2Monotone(m, n - 1);
    }
  }

  lemma JitteredMonotone(c: RetryConfig, a1: int, r1: real, a2: int, r2: real)
    requires ValidRetry(c) && 1 <= a1 <= a2
    requires ValidRandom(r1) && ValidRandom(r2) && r1 <= r2
    ensures 0.0 <= Jittered(c, a1, r1) <= Jittered(c, a2, r2)
  {
    Pow2Monotone(a1 - 1, a2 - 1);
    ProductGrows(0, Pow2(a1 - 1), c.baseDelayMs);
    ProductGrows(Pow2(a1 - 1), Pow2(a2 - 1), c.baseDelayMs);
    ProductMonotone(c.jitterRatio, c.jitterRatio, r1, r2);
    ProductMonotone(
      Exponential(c, a1) as real, Exponential(c, a2) as real,
      1.0 + c.jitterRatio * r1, 1.0 + c.jitterRatio * r2);
  }

  lemma RoundMonotone(x: real, y: real)
    requires 0.0 <= x <= y
    ensures 0 <= Round(x) <= Round(y)
  {}

  /** Delays grow with the attempt number and with the random value, and never leave [0, maxDelayMs]. */
  lemma DelayMonotone(c: RetryConfig, a1: int, r1: real, a2: int, r2: real)
    requires ValidRetry(c) && 1 <= a1 <= a2
    requires ValidRandom(r1) && ValidRandom(r2) && r1 <= r2
    ensures 0 <= DelayAfter(c, a1, r1) <= DelayAfter(c, a2, r2) <= c.maxDelayMs
  {
    JitteredMonotone(c, a1, r1, a2, r2);
    RoundMonotone(Jittered(c, a1, r1), Jittered(c, a2, r2));
  }

  /** To the nearest integer, and upwards from the middle. */
  lemma RoundIsNearest(x: real)
    ensures x - 0.5 < Round(x) as real <= x + 0.5
  {}

  lemma RoundOfWhole(n: int)
    ensures Round(n as real) == n
  {}

  lemma UncappedWithoutJitter(c: RetryConfig, attempt: int, random: real)
    requires c.jitterRatio == 0.0 && attempt >= 1
    ensures DelayAfter(c, attempt, random) == Min(c.maxDelayMs, Exponential(c, attempt))
  {
    assert c.jitterRatio * random == 0.0;
    assert Jittered(c, attempt, random) == Exponential(c, attempt) as real;
    RoundOfWhole(Exponential(c, attempt));
  }

  /** Without jitter the first delay is the base delay, and each is twice the one before, up to the cap. */
  lemma DelaysDouble(c: RetryConfig, attempt: int, random: real)
    requires ValidRetry(c) && c.jitterRatio == 0.0 && attempt >= 1
    ensures DelayAfter(c, 1, random) == c.baseDelayMs
    ensures DelayAfter(c, attempt + 1, random) == Min(c.maxDelayMs, 2 * DelayAfter(c, attempt, random))
  {
    assert Pow2(0) == 1;
    UncappedWithoutJitter(c, 1, random);
    UncappedWithoutJitter(c, attempt, random);
    UncappedWithoutJitter(c, attempt + 1, random);
    assert Pow2(attempt) == 2 * Pow2(attempt - 1);
    assert Exponential(c, attempt + 1) == 2 * Exponential(c, attempt);
    ProductGrows(0, Pow2(attempt - 1), c.baseDelayMs);
  }

  /** Jitter stretches that delay in proportion to the ratio and the random value, again up to the cap. */
  lemma JitterStretches(c: RetryConfig, attempt: int, random: real)
    requires ValidRetry(c) && attempt >= 1 && ValidRandom(random)
    ensures var plain := DelayAfter(c.(jitterRatio := 0.0), attempt, random);
      var stretched := (plain as real) * (1.0 + c.jitterRatio * random);
      var delay := DelayAfter(c, attempt, random);
      && delay <= c.maxDelayMs
      && (delay < c.maxDelayMs ==> stretched - 0.5 < delay as real <= stretched + 0.5)
      && (delay == c.maxDelayMs ==> c.maxDelayMs as real <= stretched + 0.5)
  {
    var plain := c.(jitterRatio := 0.0);
    UncappedWithoutJitter(plain, attempt, random);
    assert Exponential(plain, attempt) == Exponential(c, attempt);
    RoundIsNearest(Jittered(c, attempt, random));
    JitteredMonotone(c, attempt, 0.0, attempt, random);
    assert c.jitterRatio * 0.0 == 0.0;
    assert Jittered(c, attempt, 0.0) == Exponential(c, attempt) as real;
    assert 0.0 <= c.jitterRatio * random;
    ProductMonotone(c.maxDelayMs as real, c.maxDelayMs as real, 1.0, 1.0 + c.jitterRatio * random);
  }

  // ---- What a run of the retry loop can take -------------------------------------------------

  /** One attempt of a run: how long the call lasted, and the random value drawn after it. */
  datatype Try = Try(durationMs: int, random: real)

  predicate PossibleTry(c: RetryConfig, t: Try) {
    0 <= t.durationMs <= c.attemptTimeoutMs && ValidRandom(t.random)
  }

  predicate PossibleRun(c: RetryConfig, tries: seq<Try>) {
    1 <= |tries| <= c.maxAttempts && forall i :: 0 <= i < |tries| ==> PossibleTry(c, tries[i])
  }

  /** Time from the first attempt to the end of the last: every call, and a delay after all but the last. */
  function Elapsed(c: RetryConfig, tries: seq<Try>): int
    requires |tries| >= 1
  {
    var n := |tries|;
    tries[n - 1].durationMs +
    if n == 1 then 0
    else Elapsed(c, tries[..n - 1]) + DelayAfter(c, n - 1, tries[n - 2].random)
  }

  /** Largest time that can have passed when attempt `attempt` starts. */
  function WindowBefore(c: RetryConfig, attempt: int): int
    requires attempt >= 1
    decreases attempt
  {
    if attempt == 1 then 0
    else WindowBefore(c, attempt - 1) + c.attemptTimeoutMs + MaximumRetryDelayAfter(c, attempt - 1)
  }

  function RetryWindow(c: RetryConfig): int
    requires c.maxAttempts >= 1
  {
    WindowBefore(c, c.maxAttempts) + c.attemptTimeoutMs
  }

  lemma {:induction false} WindowMonotone(c: RetryConfig, a: int, b: int)
    requires ValidRetry(c) && 1 <= a <= b
    ensures 0 <= WindowBefore(c, a) <= WindowBefore(c, b)
    decreases b
  {
    if b > 1 {
      DelayMonotone(c, b - 1, 1.0, b - 1, 1.0);
      if a < b {
        WindowMonotone(c, a, b - 1);
      } else {
        WindowMonotone(c, b - 1, b - 1);
      }
    }
  }

  lemma {:induction false} RunFitsWindow(c: RetryConfig, tries: seq<Try>)
    requires ValidRetry(c) && PossibleRun(c, tries)
    ensures Elapsed(c, tries) <= WindowBefore(c, |tries|) + c.attemptTimeoutMs
    decreases |tries|
  {
    var n := |tries|;
    assert PossibleTry(c, tries[n - 1]);
    if n > 1 {
      assert PossibleTry(c, tries[n - 2]);
      RunFitsWindow(c, tries[..n - 1]);
      DelayMonotone(c, n - 1, tries[n - 2].random, n - 1, 1.0);
    }
  }

  /** Every attempt runs into its timeout and every draw is the largest. */
  function WorstRun(c: RetryConfig, n: nat): (tries: seq<Try>)
    ensures |tries| == n && forall i :: 0 <= i < n ==> tries[i] == Try(c.attemptTimeoutMs, 1.0)
  {
    seq(n, _ => Try(c.attemptTimeoutMs, 1.0))
  }

  lemma {:induction false} WorstRunElapsed(c: RetryConfig, n: nat)
    requires n >= 1
    ensures Elapsed(c, WorstRun(c, n)) == WindowBefore(c, n) + c.attemptTimeoutMs
  {
    if n > 1 {
      assert WorstRun(c, n)[..n - 1] == WorstRun(c, n - 1);
      WorstRunElapsed(c, n - 1);
    }
  }

  /** The window is the exact maximum: no run exceeds it, and one attains it. */
  lemma WindowIsExactWorstCase(c: RetryConfig)
    requires ValidRetry(c)
    ensures forall tries :: PossibleRun(c, tries) ==> Elapsed(c, tries) <= RetryWindow(c)
    ensures exists tries :: PossibleRun(c, tries) && Elapsed(c, tries) == RetryWindow(c)
  {
    forall tries | PossibleRun(c, tries)
      ensures Elapsed(c, tries) <= RetryWindow(c)
    {
      RunFitsWindow(c, tries);
      WindowMonotone(c, |tries|, c.maxAttempts);
    }
    var worst := WorstRun(c, c.maxAttempts);
    WorstRunElapsed(c, c.maxAttempts);
    assert PossibleRun(c, worst);
  }

  function MaximumDelaysBefore(c: RetryConfig, attempt: int): int
    requires attempt >= 1
    decreases attempt
  {
    if attempt == 1 then 0
    else MaximumDelaysBefore(c, attempt - 1) + MaximumRetryDelayAfter(c, attempt - 1)
  }

  /** The startup loop adds up calls and delays separately; the window interleaves them. */
  lemma {:induction false} WindowSplits(c: RetryConfig, attempt: int)
    requires attempt >= 1
    ensures WindowBefore(c, attempt) + c.attemptTimeoutMs
         == attempt * c.attemptTimeoutMs + MaximumDelaysBefore(c, attempt)
    decreases attempt
  {
    if attempt > 1 {
      WindowSplits(c, attempt - 1);
      assert attempt * c.attemptTimeoutMs == (attempt - 1) * c.attemptTimeoutMs + c.attemptTimeoutMs;
    }
  }

  /** The startup computation; `None` stands for the thrown error. */
  method CalculateMaximumRetryWindowMs(c: RetryConfig) returns (window: Option<int>)
    ensures window.Some? <==> ValidRetry(c) && RetryWindow(c) <= MAX_SAFE_INTEGER
    ensures window.Some? ==> window.value == RetryWindow(c)
  {
    if !ValidRetry(c) {
      return None;
    }
    var calls := c.maxAttempts * c.attemptTimeoutMs;
    var total := calls;
    for attempt := 1 to c.maxAttempts
      invariant total == calls + MaximumDelaysBefore(c, attempt)
    {
      total := total + MaximumRetryDelayAfter(c, attempt);
    }
    WindowSplits(c, c.maxAttempts);
    if total > MAX_SAFE_INTEGER {
      return None;
    }
    return Some(total);
  }

  // ---- What startup accepts ------------------------------------------------------------------

  datatype TimingConfig = TimingConfig(
    retry: RetryConfig,
    executionOverheadMs: int,
    processingStaleTimeoutMs: int,
    minimumStaleMarginMs: int)

  datatype Timing = Timing(
    maximumRetryWindowMs: int,
    maximumProviderExecutionWindowMs: int,
    staleMarginMs: int)

  function ExecutionWindow(c: TimingConfig): int
    requires c.retry.maxAttempts >= 1
  {
    RetryWindow(c.retry) + c.executionOverheadMs
  }

  /** What a lease needs from its configuration: it outlives the longest execution. */
  predicate LeaseCoversExecution(c: TimingConfig) {
    && ValidRetry(c.retry)
    && c.executionOverheadMs >= 0
    && ExecutionWindow(c) < c.processingStaleTimeoutMs
  }

  /** The configurations that let the process start. */
  predicate AcceptedTiming(c: TimingConfig) {
    && ValidRetry(c.retry)
    && SafeInteger(c.executionOverheadMs, 0)
    && SafeInteger(c.processingStaleTimeoutMs, 1)
    && SafeInteger(c.minimumStaleMarginMs, 1)
    && ExecutionWindow(c) + c.minimumStaleMarginMs <= c.processingStaleTimeoutMs
  }

  /** Term by term: the ranges of the eight numbers, and a lease that leaves the configured margin. */
  lemma AcceptedExactly(c: TimingConfig)
    ensures AcceptedTiming(c) <==>
      && 1 <= c.retry.maxAttempts <= 10
      && 1 <= c.retry.attemptTimeoutMs <= 9007199254740991
      && 0 <= c.retry.baseDelayMs <= c.retry.maxDelayMs <= 9007199254740991
      && 0.0 <= c.retry.jitterRatio <= 1.0
      && 0 <= c.executionOverheadMs <= 9007199254740991
      && 1 <= c.processingStaleTimeoutMs <= 9007199254740991
      && 1 <= c.minimumStaleMarginMs <= 9007199254740991
      && c.processingStaleTimeoutMs - (RetryWindow(c.retry) + c.executionOverheadMs) >= c.minimumStaleMarginMs
  {}

  /** The startup check; `None` stands for the thrown error. */
  method ValidateProviderTiming(c: TimingConfig) returns (timing: Option<Timing>)
    ensures timing.Some? <==> AcceptedTiming(c)
    ensures timing.Some? ==>
      && timing.value.maximumRetryWindowMs == RetryWindow(c.retry)
      && timing.value.maximumProviderExecutionWindowMs == ExecutionWindow(c)
      && timing.value.staleMarginMs == c.processingStaleTimeoutMs - ExecutionWindow(c)
      && timing.value.staleMarginMs >= c.minimumStaleMarginMs
  {
    if !SafeInteger(c.executionOverheadMs, 0)
       || !SafeInteger(c.processingStaleTimeoutMs, 1)
       || !SafeInteger(c.minimumStaleMarginMs, 1) {
      return None;
    }
    var window := CalculateMaximumRetryWindowMs(c.retry);
    if window.None? {
      return None;
    }
    var execution := window.value + c.executionOverheadMs;
    var margin := c.processingStaleTimeoutMs - execution;
    if margin < c.minimumStaleMarginMs {
      return None;
    }
    return Some(Timing(window.value, execution, margin));
  }

  /** `loadConfig` additionally makes the shutdown grace period cover one execution. */
  method AcceptConfiguration(c: TimingConfig, shutdownGracePeriodMs: int) returns (accepted: bool)
    ensures accepted <==> AcceptedTiming(c) && ExecutionWindow(c) <= shutdownGracePeriodMs
    ensures accepted ==> LeaseCoversExecution(c)
  {
    var timing := ValidateProviderTiming(c);
    accepted := timing.Some? && shutdownGracePeriodMs >= timing.value.maximumProviderExecutionWindowMs;
  }
}
