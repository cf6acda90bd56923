/** What one pass of the retry loop must do, said without the loop. */
module RetryLoop {
  import opened Domain
  import opened FailurePolicy
  import opened RetryPolicy
  import opened BreakerModel

  /** Attempt `attempt` ends the loop: it succeeded, or its error is not retried. */
  predicate Stops(c: RetryConfig, reply: Reply, attempt: int) {
    reply.Failed? ==> !ShouldRetry(c, reply.error, attempt)
  }

  /** The first attempt, from `attempt` on, that ends the loop; `replies[k - 1]` answers attempt k. */
  function LastAttemptFrom(c: RetryConfig, replies: seq<Reply>, attempt: int): (k: int)
    requires 1 <= attempt <= c.maxAttempts <= |replies|
    ensures attempt <= k <= c.maxAttempts
    decreases c.maxAttempts - attempt
  {
    if attempt == c.maxAttempts || Stops(c, replies[attempt - 1], attempt) then attempt
    else LastAttemptFrom(c, replies, attempt + 1)
  }

  function LastAttempt(c: RetryConfig, replies: seq<Reply>): int
    requires 1 <= c.maxAttempts <= |replies|
  {
    LastAttemptFrom(c, replies, 1)
  }

  /** A reply that settles the matter by itself: a result, or an error that is never retried. */
  predicate Final(reply: Reply) {
    reply.Failed? ==> !Classify(reply.error).retryable
  }

  /** k is the first final reply, or the attempt limit when every earlier reply was retryable. */
  lemma {:induction false} LastAttemptIsFirstFinalReply(c: RetryConfig, replies: seq<Reply>, attempt: int)
    requires 1 <= attempt <= c.maxAttempts <= |replies|
    ensures var k := LastAttemptFrom(c, replies, attempt);
      && (forall j :: attempt - 1 <= j < k - 1 ==> !Final(replies[j]))
      && (Final(replies[k - 1]) || k == c.maxAttempts)
    decreases c.maxAttempts - attempt
  {
    if attempt != c.maxAttempts && !Stops(c, replies[attempt - 1], attempt) {
      LastAttemptIsFirstFinalReply(c, replies, attempt + 1);
    }
  }

  /** The breaker hears of the last reply only. */
  function OutcomeOf(reply: Reply): Outcome {
    match reply
    case Approved(_) => Success
    case Failed(error) => if Classify(error).countsTowardCircuitBreaker then Failure else NonFailure
  }

  /** The delays slept before attempts 2..k. */
  function Delays(c: RetryConfig, randoms: seq<real>, k: nat): (d: seq<int>)
    requires k <= |randoms|
    ensures |d| == k
  {
    seq(k, i requires 0 <= i < k => DelayAfter(c, i + 1, randoms[i]))
  }

  /** The breaker's view of a reply, class by class. */
  lemma OutcomeByClass(reply: Reply)
    ensures OutcomeOf(reply).Success? <==> reply.Approved?
    ensures reply.Failed? ==>
      (OutcomeOf(reply).Failure? <==>
        || reply.error.TimedOut? || reply.error.NetworkFailed? || reply.error.Unavailable?
        || reply.error.ServerFailed? || reply.error.InvalidResponse?)
  {}

  function Sum(s: seq<int>): int {
    if s == [] then 0 else Sum(s[..|s| - 1]) + s[|s| - 1]
  }

  function Durations(tries: seq<Try>): seq<int> {
    seq(|tries|, i requires 0 <= i < |tries| => tries[i].durationMs)
  }

  function Randoms(tries: seq<Try>): seq<real> {
    seq(|tries|, i requires 0 <= i < |tries| => tries[i].random)
  }

  /** What is slept between the calls is what the window accounts for. */
  lemma {:induction false} ElapsedAddsUp(c: RetryConfig, tries: seq<Try>)
    requires |tries| >= 1
    ensures Elapsed(c, tries) == Sum(Durations(tries)) + Sum(Delays(c, Randoms(tries), |tries| - 1))
    decreases |tries|
  {
    var n := |tries|;
    var front := tries[..n - 1];
    assert Durations(tries)[..n - 1] == Durations(front);
    if n > 1 {
      ElapsedAddsUp(c, front);
      assert Delays(c, Randoms(tries), n - 1)[..n - 2] == Delays(c, Randoms(front), n - 2);
    }
  }
}

module ResilientProviders {
  import opened Domain
  import opened FailurePolicy
  import opened RetryPolicy
  import opened BreakerModel
  import opened CircuitBreakers
  import opened RetryLoop

  datatype Call = Call(transaction: TransactionInput, idempotencyKey: Key)

  /** The wrapped provider, the sleeper and the random source are scripts; `calls` and `sleeps` log their use. */
  class ResilientPaymentProvider {
    const retry: RetryConfig
    const breaker: CircuitBreaker
    var calls: seq<Call>
    var sleeps: seq<int>

    constructor (retry: RetryConfig, breaker: CircuitBreaker)
      requires ValidRetry(retry)
      ensures this.retry == retry && this.breaker == breaker && calls == [] && sleeps == []
    {
      this.retry, this.breaker := retry, breaker;
      calls, sleeps := [], [];
    }

    /**
     * One `process` call. `replies[k - 1]` is the provider's answer to attempt k, `randoms[k - 1]` the
     * draw after it, and `others` what other executions do to the breaker while this one is away.
     */
    method Process(transaction: TransactionInput, idempotencyKey: Key, replies: seq<Reply>,
                   randoms: seq<real>, others: seq<BreakerCall>, startedAt: int, endedAt: int)
      returns (reply: Reply)
      requires ValidRetry(retry) && retry.maxAttempts <= |replies| && retry.maxAttempts <= |randoms|
      requires forall i :: 0 <= i < |randoms| ==> ValidRandom(randoms[i])
      modifies this, breaker
      ensures var asked := BreakerModel.Acquire(breaker.config, old(breaker.Model()), startedAt);
        match asked.1
        case None =>
          && reply == Failed(CircuitOpen)
          && breaker.Model() == asked.0
          && calls == old(calls) && sleeps == old(sleeps)
        case Some(permit) =>
          var k := LastAttempt(retry, replies);
          && reply == replies[k - 1]
          && calls == old(calls) + seq(k, _ => Call(transaction, idempotencyKey))
          && sleeps == old(sleeps) + Delays(retry, randoms, k - 1)
          && breaker.Model() == Record(breaker.config, PerformAll(breaker.config, asked.0, others),
                                       permit, OutcomeOf(reply), endedAt)
    {
      var permit := breaker.Acquire(startedAt);
      if permit.None? {
        return Failed(CircuitOpen);
      }
      breaker.Interfere(others);
      ghost var away := breaker.Model();
      var attempt := 1;
      while attempt <= retry.maxAttempts
        invariant 1 <= attempt <= retry.maxAttempts
        invariant LastAttemptFrom(retry, replies, attempt) == LastAttempt(retry, replies)
        invariant calls == old(calls) + seq(attempt - 1, _ => Call(transaction, idempotencyKey))
        invariant sleeps == old(sleeps) + Delays(retry, randoms, attempt - 1)
        invariant breaker.Model() == away
      {
        calls := calls + [Call(transaction, idempotencyKey)];
        reply := replies[attempt - 1];
        if reply.Approved? {
          breaker.RecordSuccess(permit.value, endedAt);
          return;
        }
        if ShouldRetry(retry, reply.error, attempt) {
          sleeps := sleeps + [DelayAfter(retry, attempt, randoms[attempt - 1])];
          attempt := attempt + 1;
          continue;
        }
        if Classify(reply.error).countsTowardCircuitBreaker {
          breaker.RecordFailure(permit.value, endedAt);
        } else {
          breaker.RecordNonFailure(permit.value, endedAt);
        }
        return;
      }
      // "Retry policy completed without a result" is never reached.
      assert false;
    }
  }
}
