# Verified model of the transaction service

A Dafny model of the parts of the service that decide whether a payment is made once, and proofs of
what they promise. `dafny verify dfyconfig.toml` checks everything.

## What is modelled

**The idempotency protocol.** Any number of `CreateTransaction` executions, on any number of replicas,
over two PostgreSQL tables, one provider and one clock. `Protocol.dfy` is a transition system: one step
is one SQL statement, one completion commit, one action of the provider, one lost reply, one clock tick,
or the death of an execution at any point. A request to the provider may be handled after its sender
has stopped waiting for it. On it rest

- `ProtocolSafety` and `ProtocolResults`: what every run keeps, for every interleaving and timing.
- `ProtocolLease`, `ProtocolClaims`, `ProtocolExactness`: what the startup check on timing buys, and that
  it cannot be relaxed. The retry arithmetic and the lease meet in `ProtocolLease.LiveIsYoungerThanLease`
  and `ProtocolExactness.LeaseConditionIsExact`.
- `ProtocolApprovals`: what becomes of an approval, from its receipt to `created: true` and the replays.
- `ProtocolPayload`, `ProtocolFirstCalls`, `ProtocolWitness`: when the provider's records and the table
  agree, exactly; a condition for it that executions can check by themselves; and one run for each of the
  two ways in which they come apart.
- `PostgresClaim.dfy`, `ProtocolLinearization`, `ProtocolInstants`, `ProtocolClaimWitness`: the claim of up
  to six statements against the one-step claim of the in-memory repository, by itself and inside a run,
  and runs that show its two deviations.
- `ProtocolRetries`, `ProtocolBreakers`: the provider call inside a run against the retry loop, and the
  breaker of each replica in a run against the breaker's own runs.
- `CreateTransaction.dfy`: the use case as a program on its collaborators, with other sessions committing
  between its statements.

**The resilience layer.** Circuit breaker (object, value model, and all runs of late and repeated
reports), failure classification, retry loop, jittered and capped backoff, its exact worst case, and the
startup check.

**Fast forms against simple ones.** The Redis fixed-window script against the in-memory limiter, the
cache-aside read against the plain repository read, and pages against the ordered list.

**Drain and shutdown** (a tracker object against its calls, counted), **the request fingerprint, and the
development provider.**

Code that updates objects in place is modelled by classes whose methods are proved against value
functions; properties are lemmas about those functions and about runs of them. Where a method awaits,
what others do meanwhile is a parameter (`gaps`, `others`, `meanwhile`, `between`, `first`, `second`,
`third`, `cleanup`), over which every contract is quantified.

## Assumptions

- There is one clock and it does not go back. The service itself lists clock skew as a limit
  (`README.md:445`, `README.md:452`).
- Every SQL statement is atomic, and so is the commit of the completion transaction.
- Transaction ids are fresh: an id is issued once.
- SHA-256 is an arbitrary function. That two inputs do not collide is a hypothesis where it is needed.
- Random values lie in [0,1]; sleeper, logger and observer do not throw.
- The provider keeps the contract of `README.md:82-88`: a key is looked up or recorded in one step, a
  recorded key is answered from its record, and never rejected. `Protocol.HonoursContract` states it, and
  `FakeProvider` shows it of the development provider.
- A cached entry is gone from the moment its time to live is over. For the rate limiter both readings of
  that moment are modelled: `lingers` keeps a counter for the very millisecond.
- Lease results speak of timely runs (`ProtocolLease.TimelyRun`): a call ends within its timeout, a sleep
  lasts its computed delay, and the rest of an execution fits the configured overhead.

## Findings

- A charged key can be without its row in two ways, and `ProtocolPayload.PayloadAgreementExactly` shows
  that a timely run has no others: a claim is released although its key is charged, or the provider charges a key
  whose row is gone.
  - The first happens when an approval is lost, a later execution reclaims the key, the open breaker
    refuses it, and its release frees the key (`ProtocolWitness.RefusedReclaimFreesAChargedKey`).
  - The second happens without any breaker, when a first attempt reaches the provider only after the
    second was rejected (`ProtocolWitness.LateDeliveryChargesAFreedKey`). It always takes an earlier
    release of the key while that very request was under way
    (`ProtocolPayload.StrayChargeNeedsEarlierRelease`).
  - Neither happens, nor can the next delivery make one happen, if and only if no claim is released while
    its key is charged or a request for it is under way (`ProtocolPayload.SafeReleasesExactly`).
  - An execution cannot see that, but it can see its own history (the repository, though not its answer,
    tells a reclaim from a new row): if no claim is released that was reclaimed, and none after a second
    call, all is well (`ProtocolFirstCalls.OneCallKeepsAgreement`).
    Neither half can be dropped: in the first of the two runs nobody makes a second call, and in the
    second nobody releases a reclaimed claim.
- `README.md:86` warns that the previous execution may still be alive during a reclaim. With timing
  accepted at startup and a timely run it is not (`ProtocolClaims.LeaseExclusion`); under a lease that
  does not cover the execution window it can be, in a timely run too
  (`ProtocolExactness.ShortLeaseHasTwoHolders`).
- Without the timing hypothesis the multi-statement claim is not linearizable. It can answer `processing`
  although the one-step claim would have answered `new_claim` at every instant of the call: on a stale
  row at its INSERT, on none at its UPDATE, and on one with an old claim time at its SELECT
  (`ProtocolClaimWitness.ReclaimIsMissed`). It is the one-step claim at some instant if and only if it
  does not give up, and answers `processing` only where the row was, at some instant, held and not
  reclaimable (`ClaimLinearization.LinearizesExactly`, and over runs
  `ProtocolInstants.RunLinearizesExactly`). A timely run can give up too
  (`ProtocolClaimWitness.GivingUpIsReachable`); that is its only deviation.
- The two repositories differ on completion: PostgreSQL also refuses a reused id and a completion time
  before the row's creation (`Store.CommitIsAtomicComplete`).
- On PostgreSQL a page beyond the announced last one can show transactions, exactly when the count was
  answered first and the table outgrew it meanwhile (`PostgresRepository.RacingPage`).
- The burst that `docs/adr/0003-use-redis-for-cache-and-rate-limiting.md:32` admits is less than
  (k + 1) times the limit in any k windows, on Redis as in memory, and that bound is attained.
- The two rate limiters agree on every trace if Redis drops a counter at the instant it expires. If it
  keeps it for that millisecond, a request in it need not be decided differently itself, but the old
  window then runs out before the new one. The limiters agree along a trace, wherever it is broken off
  and however often its last request is repeated, if and only if no request of it comes in such a
  millisecond (`LingeringExpiry.AgreementIsExact`).
- Requests that fit the execution window are never forced to stop, except that one which began in the
  millisecond of the signal can tie with a timer that goes first, if the grace period equals the window
  (`Lifecycle.FittingRequestsExactly`). `src/config.ts:242-245` accepts that grace period.

## Model

| member | source | states |
|---|---|---|
| `FailurePolicy.Classify` | src/infrastructure/providers/provider-failure-policy.ts:20-80 | only ambiguous failures are retried or counted, and exactly the unambiguous ones are those on which the use case releases its claim |
| `FailurePolicy.ClassifiedByClass` | src/infrastructure/providers/provider-failure-policy.ts:20-80 | class by class: which errors are tried again, which the breaker counts, which are rejections, and which release the claim |
| `RetryPolicy.JitteredMonotone` | src/infrastructure/providers/retry-policy.ts:69-71 | the unrounded delay grows with the attempt and with the random value |
| `RetryPolicy.DelayMonotone` | src/infrastructure/providers/retry-policy.ts:65-73 | delays grow with the attempt and with the random value and stay within [0, maxDelayMs] |
| `RetryPolicy.DelaysDouble` | src/infrastructure/providers/retry-policy.ts:65-73 | without jitter the first delay is the base delay, and each is twice the one before, up to the cap |
| `RetryPolicy.JitterStretches` | src/infrastructure/providers/retry-policy.ts:65-73 | with jitter the delay is that one stretched by 1 + ratio × random value, rounded half up, again up to the cap |
| `RetryPolicy.RunFitsWindow` | src/infrastructure/providers/retry-policy.ts:65-95 | no run of n attempts, whatever its durations and random values, takes longer than the window up to attempt n |
| `RetryPolicy.WindowIsExactWorstCase` | src/infrastructure/providers/retry-policy.ts:80-95 | no possible run exceeds the computed window, and some possible run attains it |
| `RetryPolicy.WindowSplits` | src/infrastructure/providers/retry-policy.ts:84-88 | adding all calls first and all delays after equals interleaving them |
| `RetryPolicy.CalculateMaximumRetryWindowMs` | src/infrastructure/providers/retry-policy.ts:80-95 | the loop returns the worst-case window, and fails exactly on an invalid configuration or an unsafe total |
| `RetryPolicy.ValidateProviderTiming` | src/infrastructure/providers/retry-policy.ts:104-134 | accepts exactly the configurations whose stale timeout exceeds the execution window by the margin, and reports the three numbers |
| `RetryPolicy.AcceptedExactly` | src/infrastructure/providers/retry-policy.ts:104-134 | accepted are exactly the numbers within their ranges whose stale timeout exceeds the execution window by at least the configured margin |
| `RetryPolicy.AcceptConfiguration` | src/config.ts:241-249 | startup accepts exactly such timing with a grace period that covers one execution, and then the lease outlasts every execution |
| `RetryLoop.LastAttemptIsFirstFinalReply` | src/infrastructure/providers/resilient-payment-provider.ts:43-95 | the last call made is the first one answered with a final reply, or the attempt limit if none is |
| `RetryLoop.OutcomeByClass` | src/infrastructure/providers/resilient-payment-provider.ts:50-91 | only an approval is a success to the breaker, and the failures it counts are the five classes that speak against the provider |
| `RetryLoop.ElapsedAddsUp` | src/infrastructure/providers/resilient-payment-provider.ts:43-80 | what the loop spends is the durations of its calls and the computed delays between them, so the window bounds it |
| `ResilientProviders.ResilientPaymentProvider.Process` | src/infrastructure/providers/resilient-payment-provider.ts:31-98 | for every reply sequence: k calls with the same key and payload, the delays in between, reply k returned or thrown, exactly one report on the own permit, and the throw after the loop unreachable |
| `CircuitBreakers.CircuitBreaker.Create` | src/infrastructure/providers/circuit-breaker.ts:20-51 | yields a breaker exactly for a valid configuration: closed, no failures, generation 0, nothing told to the observer |
| `CircuitBreakers.CircuitBreaker.State` | src/infrastructure/providers/circuit-breaker.ts:53-56 | an open breaker becomes half open after the open interval |
| `CircuitBreakers.CircuitBreaker.Acquire` | src/infrastructure/providers/circuit-breaker.ts:58-75 | the new state and the permit, or its refusal, as a function of the old state and the time |
| `CircuitBreakers.CircuitBreaker.RecordSuccess` | src/infrastructure/providers/circuit-breaker.ts:77-90 | the new state and the observer call, as a function of the old; of a probe, with `ProbeDecides`: it closes the breaker, and the observer hears that |
| `CircuitBreakers.CircuitBreaker.RecordFailure` | src/infrastructure/providers/circuit-breaker.ts:92-110 | the new state and the observer call, as a function of the old; of a probe, with `ProbeDecides`: it opens the breaker at that time, and the observer hears that |
| `CircuitBreakers.CircuitBreaker.RecordNonFailure` | src/infrastructure/providers/circuit-breaker.ts:112-120 | a current non-failure closes from half open and tells the observer, and changes nothing else |
| `BreakerRuns.PermitsKept` | src/infrastructure/providers/circuit-breaker.ts:58-152 | current permits are closed ones when closed, none when open, at most one probe when half open; kept by every step |
| `BreakerRuns.NoticesKept` | src/infrastructure/providers/circuit-breaker.ts:137-152 | the observer is called once for each generation and never otherwise, and its last call says whether the breaker has opened, and when, or closed; kept by every step |
| `BreakerRuns.CountKept` | src/infrastructure/providers/circuit-breaker.ts:77-120 | the count is the number of current failures since the last current success in the history, and stays below the threshold |
| `BreakerRuns.OpensExactlyAtThreshold` | src/infrastructure/providers/circuit-breaker.ts:92-110 | from closed, a report opens the breaker exactly when the history count reaches the threshold |
| `BreakerRuns.OpeningsKept` | src/infrastructure/providers/circuit-breaker.ts:122-131 | no permit is granted within the open interval of any opening |
| `BreakerRuns.BreakerInvariantHolds` | src/infrastructure/providers/circuit-breaker.ts:38-153 | all of these in every state of every run, with late, repeated and missing reports |
| `BreakerRuns.ProbeDecides` | src/infrastructure/providers/circuit-breaker.ts:77-120 | a current report on a half-open permit is followed at once by its notice: after a failure the breaker is open since then, after anything else it is closed |
| `BreakerRuns.ProbesKept` | src/infrastructure/providers/circuit-breaker.ts:77-120 | so in the log of every run: each current report on a probe is followed by a closing notice, or by an opening one with its own time if it failed |
| `BreakerRuns.GrantsExactly` | src/infrastructure/providers/circuit-breaker.ts:58-75 | who is granted what: closed, everybody; open, nobody before the interval is over, and then the first to ask gets the probe; half open, only the first |
| `Store.ClaimStatementsKeepConstraints` | migrations/001_create_transactions_and_idempotency_operations.sql:27-48 | INSERT, UPDATE and the one-step claim keep the table constraints |
| `Store.SettlingStatementsKeepConstraints` | migrations/001_create_transactions_and_idempotency_operations.sql:27-48 | so do completion and release |
| `Store.CommitIsAtomicComplete` | src/infrastructure/repositories/postgres-transaction-repository.ts:169-211 | the completion transaction equals the in-memory completion exactly when the id is new and the completion is not backdated, or nothing is held |
| `Store.ReleaseAfterClaim` | src/infrastructure/repositories/postgres-transaction-repository.ts:213-222 | releasing removes the claimed row and nothing else, and undoes the claim exactly when there was no row before |
| `Store.ReleaseTakesExactly` | src/infrastructure/repositories/postgres-transaction-repository.ts:213-222 | a release takes away exactly a processing row under that key and fingerprint, and changes nothing else |
| `Store.CompletionTakesExactly` | src/infrastructure/repositories/postgres-transaction-repository.ts:169-211 | a completion is carried out exactly on such a row, not backdated and under a new id, and then completes it and stores its transaction; otherwise nothing changes |
| `InMemoryRepository.InMemoryTransactionRepository.ClaimIdempotencyOperation` | src/infrastructure/repositories/in-memory-transaction-repository.ts:15-51 | the new tables and the answer are those of the one-step claim |
| `InMemoryRepository.InMemoryTransactionRepository.CompleteIdempotencyOperation` | src/infrastructure/repositories/in-memory-transaction-repository.ts:53-69 | completes exactly a processing row under the same fingerprint, and otherwise throws and changes nothing |
| `InMemoryRepository.InMemoryTransactionRepository.ReleaseIdempotencyOperation` | src/infrastructure/repositories/in-memory-transaction-repository.ts:71-81 | deletes exactly a processing row under the same fingerprint |
| `InMemoryRepository.InMemoryTransactionRepository.List` | src/infrastructure/repositories/in-memory-transaction-repository.ts:87-95 | a slice of the one ordered list of all transactions, in whatever order the map is walked |
| `InMemoryRepository.InMemoryTransactionRepository.ListTransactions` | src/application/use-cases/list-transactions.ts:17-33 | the requested page of the ordered list with its totals; both reads run before anybody else |
| `InMemoryRepository.OrderedListIsOrdered` | src/infrastructure/repositories/in-memory-transaction-repository.ts:87-95 | the list is ordered by creation time and id, both descending, and holds exactly the stored transactions |
| `InMemoryRepository.ListIsUnique` | src/infrastructure/repositories/postgres-transaction-repository.ts:241-258 | any ordered list of the stored transactions is that list |
| `InMemoryRepository.CountIsListLength` | src/infrastructure/repositories/in-memory-transaction-repository.ts:97-99 | the count is the length of the list |
| `Listing.OrderIsUnique` | src/infrastructure/repositories/postgres-transaction-repository.ts:252-252 | two ordered lists with the same members are the same list |
| `Listing.NewestFirst` | src/infrastructure/repositories/postgres-transaction-repository.ts:252-252 | earlier in the list means created later, or at the same time with the greater id |
| `Listing.FirstPagesArePrefix` | src/application/use-cases/list-transactions.ts:17-33 | pages 1 to n, end to end, are a prefix of the list |
| `Listing.PagesPartitionTheList` | src/application/use-cases/list-transactions.ts:17-33 | pages 1 to totalPages, end to end, are the whole list in order |
| `Listing.OrderedListsEachOnce` | src/infrastructure/repositories/in-memory-transaction-repository.ts:87-95 | nothing occurs twice in it |
| `Listing.LaterPagesAreEmpty` | src/application/use-cases/list-transactions.ts:25-32 | a page is empty exactly when its number exceeds totalPages |
| `Listing.PageShape` | src/application/use-cases/list-transactions.ts:17-33 | a page carries its number, its limit and the total, and shows at most `limit` rows, those at its offset, fewer only at the end of the list |
| `PostgresRepository.PostgresTransactionRepository.ClaimIdempotencyOperation` | src/infrastructure/repositories/postgres-transaction-repository.ts:86-167 | the two-round loop, with anything committed by others before each statement, ends as the claim function says |
| `PostgresRepository.PostgresTransactionRepository.CompleteIdempotencyOperation` | src/infrastructure/repositories/postgres-transaction-repository.ts:169-211 | both writes commit or neither does |
| `PostgresRepository.PostgresTransactionRepository.ReleaseIdempotencyOperation` | src/infrastructure/repositories/postgres-transaction-repository.ts:213-222 | deletes exactly a processing row under the same fingerprint |
| `PostgresRepository.PostgresTransactionRepository.ListTransactions` | src/application/use-cases/list-transactions.ts:17-33 | the page of one moment with the totals of another, in either order, and others committing in between |
| `PostgresRepository.RacingPage` | src/application/use-cases/list-transactions.ts:19-32 | such a page lies beyond its own totalPages and still shows something exactly when the count came first and the table outgrew it |
| `ClaimLinearization.ClaimChangesNothingBefore` | src/infrastructure/repositories/postgres-transaction-repository.ts:89-166 | up to its last statement a claim has seen the work of others only |
| `ClaimLinearization.ClaimIsAtomicOrMissesReclaim` | src/infrastructure/repositories/postgres-transaction-repository.ts:89-166 | at its last statement a claim is the one-step claim, or reports a row as in progress that has gone stale since the UPDATE, or gives up |
| `ClaimLinearization.ClaimIsLinearizable` | src/infrastructure/repositories/postgres-transaction-repository.ts:86-167 | there is an instant inside the call at which the one-step claim has the same effect and answer; the only other outcomes are `processing` for `new_claim` and giving up |
| `ClaimLinearization.GapGoesStaleExactly` | src/infrastructure/repositories/postgres-transaction-repository.ts:115-123 | a row becomes reclaimable during a gap exactly if some commit in it writes an old claim time and the row stays so until the end |
| `ClaimLinearization.LinearizesExactly` | src/infrastructure/repositories/postgres-transaction-repository.ts:86-167 | there is an instant inside the call at which the one-step claim gives the same answer and, with what others commit after it, the same tables, if and only if the claim does not give up, and answers `processing` only where the row was at some instant held and not reclaimable |
| `ClaimLinearization.LastStatementDiffersExactly` | src/infrastructure/repositories/postgres-transaction-repository.ts:115-163 | at its last statement a claim that does not give up differs from the one-step claim if and only if it answers `processing` and the row was given an old claim time between its UPDATE and its SELECT |
| `ClaimLinearization.StaysFresh` | src/infrastructure/repositories/postgres-transaction-repository.ts:115-123 | a row that is not reclaimable stays so while others write recent claim times only |
| `ClaimLinearization.TimelyClaimIsAtomic` | src/infrastructure/repositories/postgres-transaction-repository.ts:86-167 | under such interference a claim that does not give up is exactly the one-step claim |
| `ClaimLinearization.GivingUpNeedsTwoReleases` | src/infrastructure/repositories/postgres-transaction-repository.ts:148-166 | "changed during claim" implies that the key lost its row at least twice during the call |
| `ProtocolLinearization.RunsClaimAsTheRepositoryDoes` | src/infrastructure/repositories/postgres-transaction-repository.ts:86-167 | in every run of the protocol a claim is the repository's claim under exactly what the other executions commit meanwhile, in their order |
| `ProtocolLinearization.GivingUpInARun` | src/infrastructure/repositories/postgres-transaction-repository.ts:148-166 | in every run, giving up means that the other executions took the row away at least twice meanwhile |
| `ProtocolLinearization.TimelyInterferenceIsRecent` | src/infrastructure/repositories/postgres-transaction-repository.ts:115-123 | in a timely run all that others commit during a claim is recent for it |
| `ProtocolLinearization.TimelyRunsClaimAtomically` | src/infrastructure/repositories/postgres-transaction-repository.ts:86-167 | so the repository's claim under what others commit in a timely run is the one-step claim, unless it gives up |
| `ProtocolLinearization.TimelyClaimInARun` | src/infrastructure/repositories/postgres-transaction-repository.ts:86-167 | in a timely run a claim that does not give up is, at a step inside the call, exactly the one-step claim: same answer, same tables |
| `ProtocolInstants.RunLinearizesExactly` | src/infrastructure/repositories/postgres-transaction-repository.ts:86-167 | in every run, a claim is the one-step claim at some instant inside the call under exactly the same condition |
| `ProtocolClaimWitness.ReclaimIsMissed` | src/infrastructure/repositories/postgres-transaction-repository.ts:115-163 | for every lease there is an untimely run in which a claim answers `processing` and the one-step claim would say `new_claim` at every instant of the call, so that no instant agrees |
| `ProtocolClaimWitness.GivingUpIsReachable` | src/infrastructure/repositories/postgres-transaction-repository.ts:148-166 | for every lease there is a timely run in which a claim gives up |
| `ProtocolRetries.RunsProviderAsTheLoopDoes` | src/infrastructure/providers/resilient-payment-provider.ts:35-97 | in every run an execution makes as many calls as the retry loop on the replies it sees, and tells the breaker once, on its own permit; then an approval goes to be stored, a rejection to a release, and every other failure is the answer |
| `ProtocolRetries.QuietWhileAtProvider` | src/infrastructure/providers/resilient-payment-provider.ts:43-80 | until then it tells the breaker nothing |
| `ProtocolRetries.SleepLastsItsDelay` | src/infrastructure/providers/resilient-payment-provider.ts:63-79 | between a failed attempt and the next call lies at least the computed delay |
| `ProtocolBreakers.ReplicaRunsItsBreaker` | src/infrastructure/providers/circuit-breaker.ts:58-152 | in every run of the protocol, a replica's breaker with the permits its executions carry goes through one of the breaker's own runs |
| `ProtocolBreakers.ReplicaBreakerInvariant` | src/infrastructure/providers/circuit-breaker.ts:38-153 | so the breaker's whole invariant holds of every replica at every moment |
| `ProtocolBreakers.CurrentPermitsInARun` | src/infrastructure/providers/circuit-breaker.ts:58-152 | executions at the provider on a current permit have it in the breaker's mode, none while it is open, one at most while it is half open; the count stays below the threshold |
| `Protocol.StepTouchesOne` | src/application/use-cases/create-transaction.ts:37-101 | an execution's step leaves the clock, the provider's records, every other execution and its own request as they are |
| `Protocol.DeadStaysDead` | src/application/use-cases/create-transaction.ts:37-101 | an execution that answered or died never moves again |
| `ProtocolSafety.StepKeepsSafe` | src/application/use-cases/create-transaction.ts:37-101 | every step, also of an expired holder, keeps the global invariant over tables, ids, provider records and program counters |
| `ProtocolSafety.SafeAlways` | src/application/use-cases/create-transaction.ts:37-101 | that invariant holds in every reachable state |
| `ProtocolSafety.CommitKeepsSafe` | src/infrastructure/repositories/postgres-transaction-repository.ts:169-211 | a completion, by whoever commits it, keeps completed rows and stored transactions in bijection |
| `ProtocolSafety.ReleaseKeepsSafe` | src/infrastructure/repositories/postgres-transaction-repository.ts:213-222 | a release, also by an expired holder, takes nothing completed away |
| `ProtocolResults.SettledIsForever` | src/infrastructure/repositories/postgres-transaction-repository.ts:107-127 | completed rows, stored transactions, provider records and given answers never change again |
| `ProtocolResults.CreatedAtMostOnce` | src/application/use-cases/create-transaction.ts:93-100 | at most one execution per key answers `created: true` |
| `ProtocolResults.OneTransactionPerKey` | src/application/use-cases/create-transaction.ts:53-55 | all successful answers for a key, at any times, carry the same transaction |
| `ProtocolResults.AnswersAreFaithful` | src/application/use-cases/create-transaction.ts:41-55 | a successful answer shows a stored transaction with the caller's fingerprint and with the provider's single id for the key, then and ever after |
| `ProtocolResults.NoMissingTransaction` | src/infrastructure/repositories/postgres-transaction-repository.ts:59-70 | "completed operation has no transaction" is unreachable |
| `ProtocolResults.CompletedOperationsMatchTransactions` | migrations/001_create_transactions_and_idempotency_operations.sql:38-47 | in every reachable state the constraints hold and every stored transaction has its completed operation |
| `ProtocolResults.StepsAreDbActions` | src/infrastructure/repositories/postgres-transaction-repository.ts:86-222 | what a step does to the tables is exactly the interference the claim is proved against |
| `ProtocolLease.LiveIsYoungerThanLease` | src/infrastructure/providers/retry-policy.ts:117-127 | a live execution is at most one execution window old, which is less than the lease |
| `ProtocolLease.StepKeepsTime` | src/infrastructure/providers/retry-policy.ts:65-95 | every step of a timely run keeps each execution within its attempt, sleep and overhead budgets |
| `ProtocolLease.ClaimableHasNoHolder` | src/infrastructure/repositories/postgres-transaction-repository.ts:115-123 | an absent or reclaimable row has no live holder |
| `ProtocolLease.StepKeepsLease` | src/infrastructure/repositories/postgres-transaction-repository.ts:86-222 | every timely step keeps one holder per key, with its row processing, its fingerprint, and its claim time |
| `ProtocolLease.LeasedAlways` | src/infrastructure/repositories/postgres-transaction-repository.ts:86-222 | so it is in every state of every timely run |
| `ProtocolClaims.LeaseExclusion` | src/infrastructure/repositories/postgres-transaction-repository.ts:115-127 | under timing accepted at startup, at most one live execution holds the claim on a key, and its row is processing under its fingerprint, stamped with its claim time |
| `ProtocolClaims.ApprovalIsNeverLost` | src/application/use-cases/create-transaction.ts:85-100 | in a timely run an execution with a provider result keeps it, through its completion and into the answer `created: true`, or dies |
| `ProtocolApprovals.ApprovedIsCreated` | src/application/use-cases/create-transaction.ts:67-100 | in a timely run an execution that receives an approval is, in every later state, dead or on its way to `created: true` with that provider id and its own payload |
| `ProtocolApprovals.SuccessAndReplay` | src/application/use-cases/create-transaction.ts:53-100 | under every configuration a timely run in which one execution answers `created: true` and the next replays its transaction |
| `ProtocolApprovals.LostApprovalIsRecovered` | src/application/use-cases/create-transaction.ts:65-100 | a timely run in which the answer to a charge is lost, and after the lease a second execution gets the same provider id and answers `created: true` with it |
| `ProtocolClaims.CannotCompleteIsUnreachable` | src/infrastructure/repositories/postgres-transaction-repository.ts:207-209 | "cannot be completed" is unreachable in timely runs |
| `ProtocolClaims.ClaimStatementsRefineAtomicClaim` | src/infrastructure/repositories/postgres-transaction-repository.ts:89-166 | in every safe state each statement of a claim changes nothing and goes on, is the one-step claim, gives up, or misses a reclaim |
| `ProtocolClaims.TimelyClaimIsAtomicClaim` | src/infrastructure/repositories/postgres-transaction-repository.ts:89-166 | in timely runs no reclaim is missed |
| `ProtocolClaims.TimelyEffectsAreRecent` | src/infrastructure/repositories/postgres-transaction-repository.ts:115-123 | in timely runs every claim time that is written lies within everybody's lease window |
| `ProtocolExactness.ShortLeaseHasTwoHolders` | src/infrastructure/providers/retry-policy.ts:117-127 | whenever the lease does not exceed the execution window, a timely run has two live holders of one key |
| `ProtocolExactness.LeaseConditionIsExact` | src/infrastructure/providers/retry-policy.ts:104-134 | every timely run excludes a second holder if and only if the lease exceeds the execution window |
| `ProtocolPayload.StepLosesExactly` | src/application/use-cases/create-transaction.ts:71-83 | one step loses payload agreement if and only if it releases a charged key, or charges a key that has no row for the payload |
| `ProtocolPayload.PayloadAgreementExactly` | src/application/use-cases/create-transaction.ts:65-83 | along any timely run, every charged key keeps a row with the charged payload's fingerprint if and only if neither happens |
| `ProtocolPayload.SafeReleasesKeepAgreement` | src/application/use-cases/create-transaction.ts:71-83 | so it is, and every request under way has its row, if no claim is released while its key is charged or a request for it is under way |
| `ProtocolPayload.SafeReleasesExactly` | src/application/use-cases/create-transaction.ts:71-83 | a timely run keeps the agreement, also against any one further delivery, if and only if all its releases are of that kind |
| `ProtocolPayload.StrayChargeNeedsEarlierRelease` | src/application/use-cases/create-transaction.ts:71-83 | a key is charged astray only after it was released while that very request was under way |
| `ProtocolFirstCalls.OneCallKeepsAgreement` | src/application/use-cases/create-transaction.ts:65-83 | in a timely run in which no claim is released that was reclaimed, and none after a second call for it, no release is unsafe and the agreement holds |
| `ProtocolPayload.PromptAgreementExactly` | src/application/use-cases/create-transaction.ts:65-83 | if moreover the provider handles requests while their senders wait, the agreement holds if and only if no breaker-refused claim is released on a charged key |
| `ProtocolPayload.PromptAgreement` | src/application/use-cases/create-transaction.ts:65-83 | then it holds whenever no reclaimed claim is refused by the breaker |
| `ProtocolPayload.StoredIsCharged` | src/application/use-cases/create-transaction.ts:85-98 | then the stored transaction of a charged key has the charged payload's fingerprint and the provider's id |
| `ProtocolWitness.RefusedReclaimFreesAChargedKey` | src/application/use-cases/create-transaction.ts:71-83 | a timely run, under accepted timing, with a prompt provider and without second calls, in which a charged key has lost its row |
| `ProtocolWitness.LateDeliveryChargesAFreedKey` | src/application/use-cases/create-transaction.ts:71-83 | another, with no reclaimed claim refused or released, in which a late request charges a freed key |
| `CreateTransactions.CreateTransaction.Execute` | src/application/use-cases/create-transaction.ts:37-101 | tables, answer and provider calls of one execution, whatever others commit meanwhile; every call carries the normalized payload and the key, and none is made without a new claim. With nobody else at work, in terms of the row found: conflict, busy, replay, or a claim at the request's time and its settlement |
| `CreateTransactions.AloneExactly` | src/application/use-cases/create-transaction.ts:41-100 | on tables nobody else touches: a new claim exactly on no row or on a processing one under the same fingerprint whose time is at least the timeout back; any other row gives busy, conflict or its stored transaction, and changes nothing |
| `CreateTransactions.ProtocolAsksLikewise` | src/application/use-cases/create-transaction.ts:41-51 | the claim request of a protocol execution is the use case's, under the same timeout |
| `CreateTransactions.ProtocolAnswersLikewise` | src/application/use-cases/create-transaction.ts:53-63 | a claim that is not won is answered in the protocol as in the use case |
| `CreateTransactions.ProtocolSettlesLikewise` | src/application/use-cases/create-transaction.ts:71-100 | the protocol's release and commit steps do what the use case does |
| `CreateTransactions.CreatedIsStored` | src/application/use-cases/create-transaction.ts:85-100 | `created: true` means a completed row and its stored transaction |
| `CreateTransactions.CreatedIsReplayedForever` | src/application/use-cases/create-transaction.ts:53-55 | every later execution with the same key and fingerprint answers with that transaction and changes nothing, whatever happened in between |
| `CreateTransactions.FailureWithoutInterference` | src/application/use-cases/create-transaction.ts:71-83 | a failed execution on a free key leaves the tables as they were exactly when the failure is unambiguous, and otherwise leaves its claim |
| `Fingerprints.NormalizeIsIdempotent` | src/application/idempotency/request-fingerprint.ts:3-11 | normalizing twice is normalizing once |
| `Fingerprints.NormalizeMeans` | src/application/idempotency/request-fingerprint.ts:3-11 | nothing is given up but white space around the two texts and the case of the currency |
| `Fingerprints.NormalizeAgrees` | src/application/idempotency/request-fingerprint.ts:3-11 | two inputs normalize alike exactly for equal amounts, equal trimmed descriptions, and trimmed currencies that are equal up to case |
| `Fingerprints.EscapeReads` | src/application/idempotency/request-fingerprint.ts:17-21 | JSON string escaping can be read back, up to the closing quote and no further |
| `Fingerprints.CanonicalReads` | src/application/idempotency/request-fingerprint.ts:17-21 | the canonical string can be read back to the input it came from |
| `Fingerprints.CanonicalIsFaithful` | src/application/idempotency/request-fingerprint.ts:13-21 | two canonical strings are equal exactly when the normalized inputs are |
| `Fingerprints.FingerprintIdentifiesPayload` | src/application/idempotency/request-fingerprint.ts:13-31 | where the digest does not collide, equal fingerprints mean equal normalized inputs; and normalizing first changes nothing |
| `Fingerprints.FingerprintsAgreeExactly` | src/application/idempotency/request-fingerprint.ts:3-31 | where the digest does not collide, fingerprints agree exactly for such inputs |
| `RateLimitModel.RetrySeconds` | src/infrastructure/rate-limit/in-memory-rate-limiter.ts:35-38 | the least number of whole seconds, and at least one, that covers the remaining time |
| `RateLimiters.InMemoryRateLimiter.Consume` | src/infrastructure/rate-limit/in-memory-rate-limiter.ts:19-44 | the new window and the decision as a function of the old window and the time |
| `RateLimiters.RedisRateLimiter.Eval` | src/infrastructure/rate-limit/redis-rate-limiter.ts:11-22 | the script's commands come to one counter, its expiry and its time to live, also in the millisecond of expiry |
| `RateLimiters.RedisRateLimiter.Consume` | src/infrastructure/rate-limit/redis-rate-limiter.ts:60-89 | the decision, failing open whenever no valid answer comes back, whether or not the script ran |
| `LimiterRefinement.RedisRefinesInMemory` | src/infrastructure/rate-limit/redis-rate-limiter.ts:71-80 | from related stores, the same decisions and retry times on every trace, although Redis counts past the limit; where counters linger, on every trace off their expiry |
| `LimiterRefinement.SameFromTheStart` | src/infrastructure/rate-limit/redis-rate-limiter.ts:60-80 | in particular from empty stores |
| `LingeringExpiry.FirstRequestAtExpiry` | src/infrastructure/rate-limit/redis-rate-limiter.ts:24-41 | the first request in the millisecond a lingering counter expires in is decided alike if and only if the old window is not used up; otherwise Redis refuses it for one second |
| `LingeringExpiry.AgreementIsExact` | src/infrastructure/rate-limit/redis-rate-limiter.ts:11-22 | where counters linger, the two agree along a trace, broken off anywhere and its last request repeated any number of times, if and only if no request of it meets its counter's expiry |
| `LingeringExpiry.AgreementIsExactFromTheStart` | src/infrastructure/rate-limit/redis-rate-limiter.ts:60-80 | in particular from empty stores |
| `LimiterRefinement.ScriptAlwaysLeavesExpiry` | src/infrastructure/rate-limit/redis-rate-limiter.ts:11-22 | whatever counter it finds, the script leaves one that expires within a window, and at once only if it found it lingering |
| `BurstBound.RedisBurstIsBounded` | src/infrastructure/rate-limit/redis-rate-limiter.ts:60-80 | any half-open interval of k windows admits fewer than (k + 1) times the limit per subject on Redis, on every trace, lingering or not |
| `BurstBound.BurstIsBounded` | src/infrastructure/rate-limit/in-memory-rate-limiter.ts:19-44 | the same in memory |
| `BurstBound.BurstBoundIsAttained` | docs/adr/0003-use-redis-for-cache-and-rate-limiting.md:32 | for every k of at least one a trace reaches that bound, in memory and on Redis |
| `BurstBound.WaitingIsEnough` | src/infrastructure/rate-limit/in-memory-rate-limiter.ts:32-40 | a rejected caller that waits the named seconds, and then comes first, is admitted; and no smaller whole number of seconds, of at least one, would reach the end of the window |
| `CacheFormat.DecodeInvertsEncode` | src/infrastructure/cache/redis-transaction-cache.ts:76-109 | a written transaction is read back under its own id, and rejected under any other |
| `CacheFormat.DecodesExactly` | src/infrastructure/cache/redis-transaction-cache.ts:76-94 | an entry is read as a transaction exactly if its fields, and no others, describe it under the id asked for |
| `CacheFormat.EncodesExactly` | src/infrastructure/cache/redis-transaction-cache.ts:96-100 | a transaction can be written exactly if what is written describes it, its date rendered by the runtime |
| `CacheAside.EventsKeepCache` | src/infrastructure/cache/redis-transaction-cache.ts:61-110 | completions, fills, expiry, evictions and entries outside the schema keep every valid entry equal to its stored row |
| `CacheAside.HitsExactly` | src/infrastructure/cache/redis-transaction-cache.ts:61-94 | a hit is exactly an entry that has not expired and describes the transaction under that id |
| `CacheAside.GetTransaction.CacheGet` | src/infrastructure/cache/redis-transaction-cache.ts:61-94 | a valid live entry is returned; an invalid one is not, and when the DEL runs it takes whatever others have put there since |
| `CacheAside.GetTransaction.CacheSet` | src/infrastructure/cache/redis-transaction-cache.ts:96-110 | a transaction inside the schema is written with its time to live, others are not |
| `CacheAside.GetTransaction.Execute` | src/application/use-cases/get-transaction.ts:12-39 | whatever others do between all commands and whatever cache commands fail, the answer is what the repository would have said at the GET or at its own read, and it is still true at the end |
| `TrackerModel.EventKeepsTracker` | src/infrastructure/operability/lifecycle.ts:8-50 | the counter stays the number of outstanding tickets, all of them issued, and nobody waits for a drain that is over |
| `TrackerModel.DrainIsFinal` | src/infrastructure/operability/lifecycle.ts:3-51 | after shutdown starts no request is added, and a successful drain leaves the counter at zero for good |
| `TrackerHistory.TrackerCounts` | src/infrastructure/operability/lifecycle.ts:8-50 | after any calls on a new tracker, counted over the calls alone: the counter is the number of begins before shutdown minus the number of different ones released since, and every waiter has the fate it is due |
| `TrackerHistory.DrainedMeansReleased` | src/infrastructure/operability/lifecycle.ts:22-50 | a drain that succeeds after shutdown started means that every request ever let in has been released |
| `Lifecycle.InFlightRequestTracker.Begin` | src/infrastructure/operability/lifecycle.ts:8-12 | counts the request, under a ticket that is not outstanding yet, and hands out its callback; or refuses, exactly once shutting down, and changes nothing |
| `Lifecycle.InFlightRequestTracker.Release` | src/infrastructure/operability/lifecycle.ts:12-20 | the first call uncounts the request and wakes all waiters at zero; a second does nothing |
| `Lifecycle.InFlightRequestTracker.WaitForDrain` | src/infrastructure/operability/lifecycle.ts:35-50 | succeeds at once when nobody runs, and waits otherwise |
| `Lifecycle.InFlightRequestTracker.Expire` | src/infrastructure/operability/lifecycle.ts:39-47 | the timer ends the waiting of its own waiter only |
| `Lifecycle.GracefulShutdownCoordinator.AwaitDrain` | src/infrastructure/operability/lifecycle.ts:99-107 | drained exactly when every request leaves before the timer, whichever of the two goes first in a tie, and over at the very instant the last one leaves |
| `Lifecycle.GracefulShutdownCoordinator.PerformShutdown` | src/infrastructure/operability/lifecycle.ts:86-114 | drained exactly when all leave in time, and then nobody runs at any closing; otherwise the counter at each closing is the number of those who have not left by then; order and times of the closings; at most the grace period and three close timeouts, even if every resource hangs |
| `Lifecycle.GracefulShutdownCoordinator.Shutdown` | src/infrastructure/operability/lifecycle.ts:80-84 | the first signal starts the shutdown; every other one, while it runs or after, gets the same promise and changes nothing |
| `Lifecycle.FittingRequestsExactly` | src/config.ts:241-249 | under an accepted grace period, requests that fit the validated window all leave in time, whenever they do, if and only if they cannot tie with the timer |
| `FakeProvider.LabelsDiffer` | src/dev/fake-provider.ts:137-141 | different sequence numbers give different provider ids |
| `FakeProvider.LabelSpells` | src/dev/fake-provider.ts:137-141 | a provider id is the prefix and the number in decimal, filled up with zeros to six digits |
| `FakeProvider.FakeProviderHandler.Handle` | src/dev/fake-provider.ts:91-169 | keeps the provider contract, records under ids never used before, follows its script for new well-formed requests only; a timeout is a late success for a caller that is still there |
| `FakeProvider.StatusesMean` | src/infrastructure/providers/http-payment-provider.ts:86-96 | of the scripted statuses, which are rejections, which are tried again and which the breaker counts |
| `FakeProvider.NamedOutcomesMean` | src/dev/fake-provider.ts:143-169 | a scripted success is the transaction; every other named outcome leaves the caller in doubt, except a timeout that it sits out |

## Left out

- HTTP routing, body and header parsing, authentication, error mapping and redaction: inputs arrive validated.
- Metrics, logs, request context, observed adapters and readiness: they only observe.
- Environment parsing in `src/config.ts` other than the acceptance of timing and grace period.
- Migrations runner, containers and infrastructure; of the tables, the checks on single column values
  (amount, currency, description, fingerprint format), which schema-accepted inputs satisfy.
- SHA-256, UTF-8 encoding and hexadecimal rendering: an arbitrary digest takes their place.
- `toUpperCase` outside ASCII: a currency is three ASCII letters once it has passed the schema.
- Floating point: delays are computed over reals, rounded half up.
- UUIDs are numbers in the order of `ORDER BY id`; `localeCompare` on lower-case UUIDs is that order.
- Redis key building, and the text of cached JSON: a cached value is a parsed JSON value, and how the
  runtime renders and reads ids and dates is a parameter.
- The await in the development provider between looking a key up and recording it, and its routes and
  missing-key answers: the model handles a request in one step.
- A restart of a replica's breaker: executions may die, and a new replica is a new breaker.
- Fairness and progress: nothing says that a request is answered in the end.
- A development provider without its network-failure hook, whose connection then ends in a server error.
- ClaimLinearization.ClaimIsLinearizable: when the claim gives up it names no instant; what is proved of
  that case is `GivingUpNeedsTwoReleases`.
- ProtocolPayload.PromptAgreement: assumes a provider that handles a request while its sender waits; the
  statements without that assumption are `PayloadAgreementExactly` and `SafeReleasesExactly`.
