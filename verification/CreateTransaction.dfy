/** The use case on its real collaborators: claim, call, and complete or release. */
module CreateTransactions {
  import opened Domain
  import opened FailurePolicy
  import opened RetryPolicy
  import opened BreakerModel
  import opened RetryLoop
  import opened ResilientProviders
  import opened Store
  import opened ClaimLinearization
  import opened PostgresRepository
  import opened Fingerprints
  import Protocol

  /** The provider's last word, as the breaker lets it through. */
  function ProviderReply(retry: RetryConfig, c: BreakerConfig, b: Breaker, now: int, replies: seq<Reply>): Reply
    requires 1 <= retry.maxAttempts <= |replies|
  {
    if BreakerModel.Acquire(c, b, now).1.None? then Failed(CircuitOpen)
    else replies[LastAttempt(retry, replies) - 1]
  }

  /** How many calls that takes. */
  function CallCount(retry: RetryConfig, c: BreakerConfig, b: Breaker, now: int, replies: seq<Reply>): nat
    requires 1 <= retry.maxAttempts <= |replies|
  {
    if BreakerModel.Acquire(c, b, now).1.None? then 0 else LastAttempt(retry, replies)
  }

  function Calls(x: TransactionInput, key: Key, n: nat): seq<Call> {
    seq(n, _ => Call(x, key))
  }

  /** Everything one execution meets: clock readings, ids, other sessions, and the provider's script. */
  datatype Surroundings = Surroundings(
    claimedAt: int,
    gaps: seq<seq<DbAction>>,
    askedAt: int,
    replies: seq<Reply>,
    randoms: seq<real>,
    breakerCalls: seq<BreakerCall>,
    answeredAt: int,
    meanwhile: seq<DbAction>,
    newId: Id,
    createdAt: int,
    completedAt: int)

  predicate Plausible(retry: RetryConfig, w: Surroundings) {
    && |w.gaps| == 6
    && retry.maxAttempts <= |w.replies| && retry.maxAttempts <= |w.randoms|
    && forall i :: 0 <= i < |w.randoms| ==> ValidRandom(w.randoms[i])
  }

  function NewTransaction(x: TransactionInput, providerId: Text, w: Surroundings): Transaction {
    Transaction(w.newId, x.amount, x.currency, x.description, providerId, w.createdAt)
  }

  /** What is made of the provider's last word, on the tables as they are by then. */
  function AfterReply(t: Tables, request: ClaimRequest, x: TransactionInput, reply: Reply, w: Surroundings)
    : (Tables, Protocol.Answer)
  {
    match reply
    case Failed(error) =>
      (if ReleasesClaim(error) then DeleteOperation(t, request.key, request.fingerprint) else t,
       Protocol.ProviderFailed(error))
    case Approved(providerId) =>
      var tx := NewTransaction(x, providerId, w);
      var (done, completed) := CommitCompletion(t, Completion(request.key, request.fingerprint, tx, w.completedAt));
      (done, if completed then Protocol.Created(tx) else Protocol.CannotComplete)
  }

  /** The tables and the answer, given how the claim went and what the provider said. */
  function Settled(trace: ClaimTrace, request: ClaimRequest, x: TransactionInput, reply: Reply, w: Surroundings)
    : (Tables, Protocol.Answer)
  {
    match trace.result
    case CompletedReplay(tx) => (trace.after, Protocol.Replayed(tx))
    case FingerprintConflict => (trace.after, Protocol.Conflict)
    case InProgress => (trace.after, Protocol.Busy)
    case MissingTransaction => (trace.after, Protocol.ClaimBroken(trace.result))
    case ChangedDuringClaim => (trace.after, Protocol.ClaimBroken(trace.result))
    case NewClaim =>
      AfterReply(ClaimLinearization.PerformAll(trace.after, w.meanwhile), request, x, reply, w)
  }

  /** A claim that is not won is answered as the protocol answers it. */
  lemma ProtocolAnswersLikewise(trace: ClaimTrace, r: ClaimRequest, x: TransactionInput, reply: Reply, w: Surroundings)
    requires !trace.result.NewClaim?
    ensures Protocol.ClaimPhase(trace.result) == Protocol.Answered(Settled(trace, r, x, reply, w).1)
    ensures Settled(trace, r, x, reply, w).0 == trace.after
  {}

  /** The claim request of a protocol execution is the one the use case makes, under the same timeout. */
  lemma ProtocolAsksLikewise(c: Protocol.Config, e: Protocol.Execution, digest: Text -> Fingerprint, timeoutMs: int)
    requires c.fingerprint(e.input) == RequestFingerprint(digest, e.input)
    requires c.timing.processingStaleTimeoutMs == timeoutMs
    ensures Protocol.RequestOf(c, e)
         == ClaimRequest(e.key, RequestFingerprint(digest, e.input), e.claimedAt, e.claimedAt - timeoutMs)
  {}

  lemma FingerprintOfNormalized(digest: Text -> Fingerprint, x: TransactionInput)
    ensures RequestFingerprint(digest, Normalize(x)) == RequestFingerprint(digest, x)
  {
    NormalizeIsIdempotent(x);
  }

  // ---- Where nobody else is at work ----------------------------------------------------------

  predicate Undisturbed(w: Surroundings) {
    w.gaps == [[], [], [], [], [], []] && w.meanwhile == []
  }

  /** The key has no row, or a processing one of this payload whose lease has run out. */
  predicate MayClaim(t: Tables, key: Key, fingerprint: Fingerprint, staleBefore: int) {
    key in t.operations ==>
      && t.operations[key].fingerprint == fingerprint
      && t.operations[key].status.Processing?
      && t.operations[key].updatedAt <= staleBefore
  }

  /** Otherwise the row itself gives the answer. */
  predicate AnswersFromRow(t: Tables, key: Key, fingerprint: Fingerprint, answer: Protocol.Answer)
    requires key in t.operations
  {
    var row := t.operations[key];
    if row.fingerprint != fingerprint then answer == Protocol.Conflict
    else if row.status.Processing? then answer == Protocol.Busy
    else if row.transactionId.Some? && row.transactionId.value in t.transactions then
      answer == Protocol.Replayed(t.transactions[row.transactionId.value])
    else answer == Protocol.ClaimBroken(MissingTransaction)
  }

  /** The row of a new claim: written afresh, or stamped with the new claim time. */
  function ClaimedRow(t: Tables, key: Key, fingerprint: Fingerprint, claimedAt: int): Operation {
    if key in t.operations then t.operations[key].(updatedAt := claimedAt)
    else Operation(fingerprint, Processing, None, claimedAt, claimedAt)
  }

  /** What becomes of a new claim when the provider has said its last word. */
  predicate EndsClaim(t: Tables, key: Key, fingerprint: Fingerprint, x: TransactionInput, reply: Reply, w: Surroundings,
                      after: Tables, answer: Protocol.Answer)
  {
    var row := ClaimedRow(t, key, fingerprint, w.claimedAt);
    match reply
    case Failed(error) =>
      && answer == Protocol.ProviderFailed(error)
      && after.transactions == t.transactions
      && after.operations ==
           if error.Rejected? || error.CircuitOpen? then t.operations - {key} else t.operations[key := row]
    case Approved(providerId) =>
      var tx := Transaction(w.newId, x.amount, x.currency, x.description, providerId, w.createdAt);
      if w.newId in t.transactions || w.completedAt < row.createdAt then
        && answer == Protocol.CannotComplete
        && after == Tables(t.operations[key := row], t.transactions)
      else
        && answer == Protocol.Created(tx)
        && after.transactions == t.transactions[w.newId := tx]
        && after.operations ==
             t.operations[key := Operation(fingerprint, Completed, Some(w.newId), row.createdAt, w.completedAt)]
  }

  lemma AloneClaims(t: Tables, r: ClaimRequest, gaps: seq<seq<DbAction>>)
    requires gaps == [[], [], [], [], [], []]
    ensures var trace := Claim(t, r, gaps);
      if r.key !in t.operations then trace.result.NewClaim? && trace.after == InsertOperation(t, r).0
      else if Stale(t, r) then trace.result.NewClaim? && trace.after == ReclaimOperation(t, r).0
      else Some(trace.result) == SelectOperation(t, r) && trace.after == t
  {
    assert Claim(t, r, gaps) == Rounds(t, r, gaps, FIRST_ROUND);
    if r.key in t.operations {
      assert Rounds(t, r, gaps, FIRST_ROUND) == FromReclaim(t, r, gaps, FIRST_ROUND);
      if !Stale(t, r) {
        assert FromReclaim(t, r, gaps, FIRST_ROUND) == FromSelect(t, r, gaps, FIRST_ROUND);
      }
    }
  }

  /** Claims and settlement together, on tables that nobody else touches. */
  lemma AloneExactly(t: Tables, r: ClaimRequest, x: TransactionInput, reply: Reply, w: Surroundings)
    requires |w.gaps| == 6
    ensures Undisturbed(w) && r.claimedAt == w.claimedAt ==>
      var trace := Claim(t, r, w.gaps);
      var (after, answer) := Settled(trace, r, x, reply, w);
      var free := MayClaim(t, r.key, r.fingerprint, r.staleBefore);
      && (trace.result.NewClaim? <==> free)
      && if free then EndsClaim(t, r.key, r.fingerprint, x, reply, w, after, answer)
         else after == t && AnswersFromRow(t, r.key, r.fingerprint, answer)
  {
    if Undisturbed(w) && r.claimedAt == w.claimedAt {
      AloneClaims(t, r, w.gaps);
    }
  }

  class CreateTransaction {
    const repository: PostgresTransactionRepository
    const provider: ResilientPaymentProvider
    const digest: Text -> Fingerprint
    const processingTimeoutMs: int

    constructor (repository: PostgresTransactionRepository, provider: ResilientPaymentProvider,
                 digest: Text -> Fingerprint, processingTimeoutMs: int)
      ensures this.repository == repository && this.provider == provider
      ensures this.digest == digest && this.processingTimeoutMs == processingTimeoutMs
    {
      this.repository, this.provider := repository, provider;
      this.digest, this.processingTimeoutMs := digest, processingTimeoutMs;
    }

    /**
     * Every call carries the normalized payload and this key; none is made without a new claim. The
     * last clause is the whole outcome where nobody else is at work.
     */
    method Execute(input: TransactionInput, key: Key, w: Surroundings) returns (answer: Protocol.Answer)
      requires ValidRetry(provider.retry) && Plausible(provider.retry, w)
      modifies repository, provider, provider.breaker
      ensures var request := ClaimRequest(key, RequestFingerprint(digest, input), w.claimedAt,
                                          w.claimedAt - processingTimeoutMs);
        var trace := Claim(old(repository.Model()), request, w.gaps);
        var reply := ProviderReply(provider.retry, provider.breaker.config, old(provider.breaker.Model()),
                                   w.askedAt, w.replies);
        var n := CallCount(provider.retry, provider.breaker.config, old(provider.breaker.Model()),
                           w.askedAt, w.replies);
        && (repository.Model(), answer) == Settled(trace, request, Normalize(input), reply, w)
        && provider.calls == old(provider.calls) + Calls(Normalize(input), key, if trace.result.NewClaim? then n else 0)
      ensures Undisturbed(w) ==>
        var t, fingerprint := old(repository.Model()), RequestFingerprint(digest, input);
        var staleBefore := w.claimedAt - processingTimeoutMs;
        var reply := ProviderReply(provider.retry, provider.breaker.config, old(provider.breaker.Model()),
                                   w.askedAt, w.replies);
        var n := CallCount(provider.retry, provider.breaker.config, old(provider.breaker.Model()),
                           w.askedAt, w.replies);
        var free := MayClaim(t, key, fingerprint, staleBefore);
        && provider.calls == old(provider.calls) + Calls(Normalize(input), key, if free then n else 0)
        && if free then
             EndsClaim(t, key, fingerprint, Normalize(input), reply, w, repository.Model(), answer)
           else repository.Model() == t && AnswersFromRow(t, key, fingerprint, answer)
    {
      FingerprintOfNormalized(digest, input);
      var normalized := Normalize(input);
      var fingerprint := RequestFingerprint(digest, normalized);
      var request := ClaimRequest(key, fingerprint, w.claimedAt, w.claimedAt - processingTimeoutMs);
      ghost var reply := ProviderReply(provider.retry, provider.breaker.config, provider.breaker.Model(),
                                       w.askedAt, w.replies);
      AloneExactly(repository.Model(), request, normalized, reply, w);
      answer := ExecuteClaimed(request, normalized, w);
    }

    method ExecuteClaimed(request: ClaimRequest, normalized: TransactionInput, w: Surroundings)
      returns (answer: Protocol.Answer)
      requires ValidRetry(provider.retry) && Plausible(provider.retry, w)
      modifies repository, provider, provider.breaker
      ensures var trace := Claim(old(repository.Model()), request, w.gaps);
        var reply := ProviderReply(provider.retry, provider.breaker.config, old(provider.breaker.Model()),
                                   w.askedAt, w.replies);
        (repository.Model(), answer) == Settled(trace, request, normalized, reply, w)
      ensures var trace := Claim(old(repository.Model()), request, w.gaps);
        var n := CallCount(provider.retry, provider.breaker.config, old(provider.breaker.Model()),
                           w.askedAt, w.replies);
        provider.calls == old(provider.calls) + Calls(normalized, request.key, if trace.result.NewClaim? then n else 0)
    {
      var claim := repository.ClaimIdempotencyOperation(request, w.gaps);
      match claim
      case CompletedReplay(tx) => answer := Protocol.Replayed(tx);
      case FingerprintConflict => answer := Protocol.Conflict;
      case InProgress => answer := Protocol.Busy;
      case MissingTransaction => answer := Protocol.ClaimBroken(claim);
      case ChangedDuringClaim => answer := Protocol.ClaimBroken(claim);
      case NewClaim => answer := CallProvider(request, normalized, w);
    }

    method CallProvider(request: ClaimRequest, normalized: TransactionInput, w: Surroundings)
      returns (answer: Protocol.Answer)
      requires ValidRetry(provider.retry) && Plausible(provider.retry, w)
      modifies repository, provider, provider.breaker
      ensures var reply := ProviderReply(provider.retry, provider.breaker.config, old(provider.breaker.Model()),
                                         w.askedAt, w.replies);
        (repository.Model(), answer) ==
          AfterReply(ClaimLinearization.PerformAll(old(repository.Model()), w.meanwhile), request, normalized, reply, w)
      ensures provider.calls == old(provider.calls) + Calls(normalized, request.key,
        CallCount(provider.retry, provider.breaker.config, old(provider.breaker.Model()), w.askedAt, w.replies))
    {
      var reply := provider.Process(normalized, request.key, w.replies, w.randoms, w.breakerCalls,
                                    w.askedAt, w.answeredAt);
      repository.Interfere(w.meanwhile);
      answer := Settle(request, normalized, reply, w);
    }

    method Settle(request: ClaimRequest, normalized: TransactionInput, reply: Reply, w: Surroundings)
      returns (answer: Protocol.Answer)
      modifies repository
      ensures (repository.Model(), answer) == AfterReply(old(repository.Model()), request, normalized, reply, w)
    {
      if reply.Failed? {
        if reply.error.Rejected? || reply.error.CircuitOpen? {
          repository.ReleaseIdempotencyOperation(request.key, request.fingerprint);
        }
        return Protocol.ProviderFailed(reply.error);
      }
      var result := Transaction(w.newId, normalized.amount, normalized.currency, normalized.description,
                                reply.providerTransactionId, w.createdAt);
      var completed := repository.CompleteIdempotencyOperation(
        Completion(request.key, request.fingerprint, result, w.completedAt));
      return if completed then Protocol.Created(result) else Protocol.CannotComplete;
    }
  }

  /**
   * The protocol's last steps are this use case's: a release, or an id and a commit, leave the tables
   * and the answer that `Settle` leaves.
   */
  lemma ProtocolSettlesLikewise(c: Protocol.Config, s: Protocol.State, i: nat, w: Surroundings)
    requires i in s.execs
    ensures var e := s.execs[i];
      var r := Protocol.RequestOf(c, e);
      && (e.phase.Releasing? && ReleasesClaim(e.phase.error) ==>
            var v := Protocol.AfterRelease(c, s, i);
            var (t, answer) := AfterReply(s.tables, r, e.input, Failed(e.phase.error), w);
            v.tables == t && v.execs[i].phase == Protocol.Answered(answer))
      && (e.phase.Settling? && w.createdAt == w.completedAt == s.now ==>
            var v := Protocol.AfterCommit(c, Protocol.AfterIssue(s, i, w.newId), i);
            var (t, answer) := AfterReply(s.tables, r, e.input, Approved(e.phase.providerTransactionId), w);
            && v.tables == t
            && v.execs[i].phase == if answer.Created? then Protocol.Committed(answer.transaction)
                                   else Protocol.Answered(answer))
  {}

  /** A row that is completed with this transaction, under this request's fingerprint. */
  predicate CompletedFor(t: Tables, r: ClaimRequest, tx: Transaction) {
    && r.key in t.operations
    && t.operations[r.key].fingerprint == r.fingerprint
    && t.operations[r.key].status.Completed?
    && t.operations[r.key].transactionId == Some(tx.id)
    && tx.id in t.transactions && t.transactions[tx.id] == tx
  }

  lemma {:induction false} CompletedStays(t: Tables, r: ClaimRequest, tx: Transaction, actions: seq<DbAction>)
    requires CompletedFor(t, r, tx)
    ensures CompletedFor(ClaimLinearization.PerformAll(t, actions), r, tx)
    decreases |actions|
  {
    if actions != [] {
      CompletedStays(ClaimLinearization.Perform(t, actions[0]), r, tx, actions[1..]);
    }
  }

  lemma CreatedIsStored(trace: ClaimTrace, r: ClaimRequest, x: TransactionInput, reply: Reply, w: Surroundings)
    requires Settled(trace, r, x, reply, w).1.Created?
    ensures var (t, answer) := Settled(trace, r, x, reply, w); CompletedFor(t, r, answer.transaction)
  {}

  /**
   * Replay. Once an execution has answered with a new transaction, every later execution for the key
   * and an equal normalized payload answers with that transaction, changes no table itself, and
   * needs no provider, whatever other sessions do in between and in the gaps.
   */
  lemma CreatedIsReplayedForever(trace: ClaimTrace, r: ClaimRequest, x: TransactionInput, reply: Reply, w: Surroundings,
                                 between: seq<DbAction>, r2: ClaimRequest, reply2: Reply, w2: Surroundings)
    requires Settled(trace, r, x, reply, w).1.Created?
    requires r2.key == r.key && r2.fingerprint == r.fingerprint && |w2.gaps| == 6
    ensures var (t, answer) := Settled(trace, r, x, reply, w);
      var trace2 := Claim(ClaimLinearization.PerformAll(t, between), r2, w2.gaps);
      && Settled(trace2, r2, x, reply2, w2).1 == Protocol.Replayed(answer.transaction)
      && trace2.after == trace2.before
  {
    var (t, answer) := Settled(trace, r, x, reply, w);
    var tx := answer.transaction;
    CreatedIsStored(trace, r, x, reply, w);
    CompletedStays(t, r, tx, between);
    var t0 := ClaimLinearization.PerformAll(t, between);
    var t1 := ClaimLinearization.PerformAll(t0, w2.gaps[0]);
    var t2 := ClaimLinearization.PerformAll(t1, w2.gaps[1]);
    CompletedStays(t0, r, tx, w2.gaps[0]);
    CompletedStays(t1, r, tx, w2.gaps[1]);
    CompletedStays(t2, r, tx, w2.gaps[2]);
  }

  /**
   * A failed execution that met nobody leaves the tables as it found them exactly when it may: a
   * claim on an absent row is undone by a definitive failure, and kept by an ambiguous one.
   */
  lemma FailureWithoutInterference(t: Tables, r: ClaimRequest, x: TransactionInput, error: ProviderError,
                                   w: Surroundings)
    requires r.key !in t.operations && w.meanwhile == [] && w.gaps == [[], [], [], [], [], []]
    ensures var (after, answer) := Settled(Claim(t, r, w.gaps), r, x, Failed(error), w);
      && answer == Protocol.ProviderFailed(error)
      && (after == t <==> !Classify(error).outcome.Ambiguous?)
      && (Classify(error).outcome.Ambiguous? ==> HeldUnder(after, r.key, r.fingerprint))
  {
    var claimed := InsertOperation(t, r).0;
    assert Claim(t, r, w.gaps).after == claimed;
    assert claimed.operations - {r.key} == t.operations;
  }
}
