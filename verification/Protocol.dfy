/**
 * Any number of `CreateTransaction` executions, on any number of replicas, over one database, one
 * provider and one clock. A step is one SQL statement, one completion commit, one provider action,
 * one clock tick, or the death of an execution.
 */
module Protocol {
  import opened Domain
  import opened FailurePolicy
  import opened RetryPolicy
  import opened RetryLoop
  import opened BreakerModel
  import opened Store

  /** `fingerprint` is `createRequestFingerprint` as a function of the normalized input. */
  datatype Config = Config(
    fingerprint: TransactionInput -> Fingerprint,
    timing: TimingConfig,
    breaker: BreakerConfig)

  /** Attempts are numbered from 1. */
  type Attempt = k: int | k >= 1 witness 1

  datatype Answer =
    | Created(transaction: Transaction)
    | Replayed(transaction: Transaction)
    | Conflict
    | Busy
    | ClaimBroken(fault: ClaimResult)
    | ProviderFailed(error: ProviderError)
    | CannotComplete

  /** The program counter, with the local variables that matter at it. */
  datatype Phase =
    | Inserting(round: nat)
    | Reclaiming(round: nat)
    | Selecting(round: nat)
    | Claimed
    | Calling(permit: Permit, attempt: Attempt, since: int, reply: Option<Reply>)
    | Sleeping(permit: Permit, attempt: Attempt, since: int, until: int)
    | Releasing(error: ProviderError)
    | Settling(providerTransactionId: Text)
    | Completing(transaction: Transaction, completedAt: int)
    | Committed(transaction: Transaction)
    | Answered(answer: Answer)
    | Gone

  /**
   * `reclaimed` says how the claim was won. `providerMs` is the time spent in calls and sleeps,
   * `overheadMs` the rest of the time since `claimedAt`.
   */
  datatype Execution = Execution(
    key: Key,
    input: TransactionInput,
    replica: nat,
    claimedAt: int,
    reclaimed: bool,
    overheadMs: int,
    providerMs: int,
    phase: Phase)

  /** A request on its way to the provider; it may arrive after its sender stopped waiting. */
  datatype Sent = Sent(execution: nat, attempt: Attempt, key: Key, payload: TransactionInput)

  /** What the provider remembers of a key. */
  datatype Charge = Charge(payload: TransactionInput, providerTransactionId: Text)

  datatype Owner = Owner(execution: nat, key: Key)

  datatype State = State(
    now: int,
    tables: Tables,
    records: map<Key, Charge>,
    wire: set<Sent>,
    breakers: map<nat, Breaker>,
    issued: map<Id, Owner>,
    execs: map<nat, Execution>)

  const INITIALLY := State(0, EMPTY, map[], {}, map[], map[], map[])

  datatype Action =
    | Tick(ms: nat)
    | Arrive(i: nat, key: Key, input: TransactionInput, replica: nat)
    | InsertRow(i: nat)
    | ReclaimRow(i: nat)
    | SelectRow(i: nat)
    | AskBreaker(i: nat)
    | ProviderHandles(sent: Sent, recorded: Option<Text>, reply: Reply)
    | Receive(i: nat, random: real)
    | LoseReply(i: nat, error: ProviderError, random: real)
    | Wake(i: nat)
    | Release(i: nat)
    | IssueId(i: nat, id: Id)
    | Commit(i: nat)
    | Respond(i: nat)
    | Abandon(i: nat)

  predicate Live(e: Execution) {
    !e.phase.Answered? && !e.phase.Gone?
  }

  /** Between winning the claim and giving it up. */
  predicate Holding(e: Execution) {
    || e.phase.Claimed? || e.phase.Calling? || e.phase.Sleeping?
    || e.phase.Releasing? || e.phase.Settling? || e.phase.Completing?
  }

  predicate InProvider(e: Execution) {
    e.phase.Calling? || e.phase.Sleeping?
  }

  function RequestOf(c: Config, e: Execution): ClaimRequest {
    ClaimRequest(e.key, c.fingerprint(e.input), e.claimedAt, e.claimedAt - c.timing.processingStaleTimeoutMs)
  }

  function BreakerOf(s: State, replica: nat): Breaker {
    if replica in s.breakers then s.breakers[replica] else INITIAL
  }

  /** The sender still waits for the answer to exactly this request. */
  predicate Awaited(s: State, m: Sent) {
    && m.execution in s.execs
    && var e := s.execs[m.execution];
       e.phase.Calling? && e.phase.attempt == m.attempt && e.phase.reply.None? && e.key == m.key
  }

  /**
   * The provider's contract: a key is looked up or recorded in one step; a recorded key is answered
   * from its record and never rejected; a rejected request is not recorded.
   */
  predicate HonoursContract(records: map<Key, Charge>, m: Sent, recorded: Option<Text>, reply: Reply) {
    && reply != Failed(CircuitOpen)
    && if m.key in records then
         && recorded.None?
         && (reply.Approved? ==> reply.providerTransactionId == records[m.key].providerTransactionId)
         && !(reply.Failed? && reply.error.Rejected?)
       else
         && (reply.Approved? ==> recorded == Some(reply.providerTransactionId))
         && (reply.Failed? && reply.error.Rejected? ==> recorded.None?)
  }

  ghost predicate Enabled(c: Config, s: State, a: Action) {
    match a
    case Tick(_) => true
    case Arrive(i, _, _, _) => i !in s.execs
    case InsertRow(i) => i in s.execs && s.execs[i].phase.Inserting?
    case ReclaimRow(i) => i in s.execs && s.execs[i].phase.Reclaiming?
    case SelectRow(i) => i in s.execs && s.execs[i].phase.Selecting?
    case AskBreaker(i) => i in s.execs && s.execs[i].phase.Claimed?
    case ProviderHandles(m, recorded, reply) => m in s.wire && HonoursContract(s.records, m, recorded, reply)
    case Receive(i, random) =>
      i in s.execs && s.execs[i].phase.Calling? && s.execs[i].phase.reply.Some? && ValidRandom(random)
    case LoseReply(i, error, random) =>
      i in s.execs && s.execs[i].phase.Calling? && (error.TimedOut? || error.NetworkFailed?) && ValidRandom(random)
    case Wake(i) => i in s.execs && s.execs[i].phase.Sleeping? && s.execs[i].phase.until <= s.now
    case Release(i) => i in s.execs && s.execs[i].phase.Releasing?
    case IssueId(i, id) => i in s.execs && s.execs[i].phase.Settling? && id !in s.issued
    case Commit(i) => i in s.execs && s.execs[i].phase.Completing?
    case Respond(i) => i in s.execs && s.execs[i].phase.Committed?
    case Abandon(i) => i in s.execs && Live(s.execs[i])
  }

  function Moved(s: State, i: nat, phase: Phase): State
    requires i in s.execs
  {
    s.(execs := s.execs[i := s.execs[i].(phase := phase)])
  }

  function Aged(e: Execution, ms: nat): Execution {
    if !Live(e) then e
    else if InProvider(e) then e.(providerMs := e.providerMs + ms)
    else e.(overheadMs := e.overheadMs + ms)
  }

  ghost function AfterTick(s: State, ms: nat): State {
    s.(now := s.now + ms, execs := map i | i in s.execs :: Aged(s.execs[i], ms))
  }

  function AfterArrive(s: State, i: nat, key: Key, input: TransactionInput, replica: nat): State {
    s.(execs := s.execs[i := Execution(key, input, replica, s.now, false, 0, 0, Inserting(0))])
  }

  function AfterInsert(c: Config, s: State, i: nat): State
    requires i in s.execs && s.execs[i].phase.Inserting?
  {
    var e := s.execs[i];
    var (tables, inserted) := InsertOperation(s.tables, RequestOf(c, e));
    Moved(s.(tables := tables), i, if inserted then Claimed else Reclaiming(e.phase.round))
  }

  function AfterReclaim(c: Config, s: State, i: nat): State
    requires i in s.execs && s.execs[i].phase.Reclaiming?
  {
    var e := s.execs[i];
    var (tables, reclaimed) := ReclaimOperation(s.tables, RequestOf(c, e));
    var next := if reclaimed then Claimed else Selecting(e.phase.round);
    s.(tables := tables, execs := s.execs[i := e.(reclaimed := reclaimed, phase := next)])
  }

  /** What `execute` makes of the claim result. */
  function ClaimPhase(result: ClaimResult): Phase {
    match result
    case NewClaim => Claimed
    case CompletedReplay(transaction) => Answered(Replayed(transaction))
    case FingerprintConflict => Answered(Conflict)
    case InProgress => Answered(Busy)
    case MissingTransaction => Answered(ClaimBroken(MissingTransaction))
    case ChangedDuringClaim => Answered(ClaimBroken(ChangedDuringClaim))
  }

  /** Where the SELECT of a round leads. */
  function SelectPhase(t: Tables, r: ClaimRequest, round: nat): Phase {
    match SelectOperation(t, r)
    case Some(result) => ClaimPhase(result)
    case None => if round == 0 then Inserting(1) else ClaimPhase(ChangedDuringClaim)
  }

  function AfterSelect(c: Config, s: State, i: nat): State
    requires i in s.execs && s.execs[i].phase.Selecting?
  {
    Moved(s, i, SelectPhase(s.tables, RequestOf(c, s.execs[i]), s.execs[i].phase.round))
  }

  function Sending(s: State, i: nat, permit: Permit, attempt: Attempt): State
    requires i in s.execs
  {
    var e := s.execs[i];
    Moved(s.(wire := s.wire + {Sent(i, attempt, e.key, e.input)}), i, Calling(permit, attempt, s.now, None))
  }

  function AfterAsk(c: Config, s: State, i: nat): State
    requires i in s.execs && s.execs[i].phase.Claimed?
  {
    var r := s.execs[i].replica;
    var (b, permit) := Acquire(c.breaker, BreakerOf(s, r), s.now);
    var asked := s.(breakers := s.breakers[r := b]);
    match permit
    case None => Moved(asked, i, Releasing(CircuitOpen))
    case Some(p) => Sending(asked, i, p, 1)
  }

  function AfterProvider(s: State, m: Sent, recorded: Option<Text>, reply: Reply): State {
    var records := if recorded.Some? then s.records[m.key := Charge(m.payload, recorded.value)] else s.records;
    var handled := s.(records := records, wire := s.wire - {m});
    if Awaited(s, m) then Moved(handled, m.execution, s.execs[m.execution].phase.(reply := Some(reply)))
    else handled
  }

  /** Where the last reply leads. */
  function ReplyPhase(reply: Reply): Phase {
    match reply
    case Approved(providerId) => Settling(providerId)
    case Failed(error) => if ReleasesClaim(error) then Releasing(error) else Answered(ProviderFailed(error))
  }

  /** Where the end of an attempt leads: to a sleep before the next one, or out. */
  function AttemptPhase(c: RetryConfig, p: Phase, reply: Reply, random: real, now: int): Phase
    requires p.Calling?
  {
    if Stops(c, reply, p.attempt) then ReplyPhase(reply)
    else Sleeping(p.permit, p.attempt, now, now + DelayAfter(c, p.attempt, random))
  }

  /** The breaker hears of an attempt that is not tried again. */
  function AttemptRecorded(c: Config, s: State, i: nat, reply: Reply): map<nat, Breaker>
    requires i in s.execs && s.execs[i].phase.Calling?
  {
    var e := s.execs[i];
    if !Stops(c.timing.retry, reply, e.phase.attempt) then s.breakers
    else
      s.breakers[e.replica :=
        Record(c.breaker, BreakerOf(s, e.replica), e.phase.permit, OutcomeOf(reply), s.now)]
  }

  function AttemptOver(c: Config, s: State, i: nat, reply: Reply, random: real): State
    requires i in s.execs && s.execs[i].phase.Calling?
  {
    Moved(s.(breakers := AttemptRecorded(c, s, i, reply)), i,
          AttemptPhase(c.timing.retry, s.execs[i].phase, reply, random, s.now))
  }

  function AfterRelease(c: Config, s: State, i: nat): State
    requires i in s.execs && s.execs[i].phase.Releasing?
  {
    var e := s.execs[i];
    Moved(s.(tables := DeleteOperation(s.tables, e.key, c.fingerprint(e.input))), i,
          Answered(ProviderFailed(e.phase.error)))
  }

  function AfterIssue(s: State, i: nat, id: Id): State
    requires i in s.execs && s.execs[i].phase.Settling?
  {
    var e := s.execs[i];
    var transaction := Transaction(
      id, e.input.amount, e.input.currency, e.input.description, e.phase.providerTransactionId, s.now);
    Moved(s.(issued := s.issued[id := Owner(i, e.key)]), i, Completing(transaction, s.now))
  }

  function CompletionOf(c: Config, e: Execution): Completion
    requires e.phase.Completing?
  {
    Completion(e.key, c.fingerprint(e.input), e.phase.transaction, e.phase.completedAt)
  }

  function AfterCommit(c: Config, s: State, i: nat): State
    requires i in s.execs && s.execs[i].phase.Completing?
  {
    var e := s.execs[i];
    var (tables, completed) := CommitCompletion(s.tables, CompletionOf(c, e));
    Moved(s.(tables := tables), i,
          if completed then Committed(e.phase.transaction) else Answered(CannotComplete))
  }

  ghost function After(c: Config, s: State, a: Action): State
    requires Enabled(c, s, a)
  {
    match a
    case Tick(ms) => AfterTick(s, ms)
    case Arrive(i, key, input, replica) => AfterArrive(s, i, key, input, replica)
    case InsertRow(i) => AfterInsert(c, s, i)
    case ReclaimRow(i) => AfterReclaim(c, s, i)
    case SelectRow(i) => AfterSelect(c, s, i)
    case AskBreaker(i) => AfterAsk(c, s, i)
    case ProviderHandles(m, recorded, reply) => AfterProvider(s, m, recorded, reply)
    case Receive(i, random) => AttemptOver(c, s, i, s.execs[i].phase.reply.value, random)
    case LoseReply(i, error, random) => AttemptOver(c, s, i, Failed(error), random)
    case Wake(i) => Sending(s, i, s.execs[i].phase.permit, s.execs[i].phase.attempt + 1)
    case Release(i) => AfterRelease(c, s, i)
    case IssueId(i, id) => AfterIssue(s, i, id)
    case Commit(i) => AfterCommit(c, s, i)
    case Respond(i) => Moved(s, i, Answered(Created(s.execs[i].phase.transaction)))
    case Abandon(i) => Moved(s, i, Gone)
  }

  /** A step of execution `i` leaves every other execution and the clock as they are. */
  ghost predicate OnlyTouches(s: State, v: State, i: nat) {
    && v.now == s.now
    && i in v.execs
    && v.execs.Keys == s.execs.Keys + {i}
    && forall x :: x in s.execs && x != i ==> v.execs[x] == s.execs[x]
  }

  predicate SameRequest(e: Execution, f: Execution) {
    f.key == e.key && f.input == e.input && f.claimedAt == e.claimedAt && f.replica == e.replica
  }

  /** It is execution `i` that takes this step. */
  predicate Moves(a: Action, i: nat) {
    !a.Tick? && !a.ProviderHandles? && a.i == i
  }

  ghost predicate MovesOnly(s: State, v: State, i: nat)
    requires i in s.execs
  {
    OnlyTouches(s, v, i) && v.records == s.records && SameRequest(s.execs[i], v.execs[i])
  }

  ghost predicate OwnStep(c: Config, s: State, a: Action)
    requires Enabled(c, s, a) && !a.Tick? && !a.ProviderHandles?
  {
    && OnlyTouches(s, After(c, s, a), a.i)
    && After(c, s, a).records == s.records
    && (a.Arrive? <==> a.i !in s.execs)
    && (a.i in s.execs ==> Live(s.execs[a.i]) && SameRequest(s.execs[a.i], After(c, s, a).execs[a.i]))
  }

  lemma ClaimMovesOnly(c: Config, s: State, i: nat)
    requires i in s.execs
    ensures s.execs[i].phase.Inserting? ==> MovesOnly(s, AfterInsert(c, s, i), i)
    ensures s.execs[i].phase.Reclaiming? ==> MovesOnly(s, AfterReclaim(c, s, i), i)
  {}

  lemma SelectMovesOnly(c: Config, s: State, i: nat)
    requires i in s.execs && s.execs[i].phase.Selecting?
    ensures MovesOnly(s, AfterSelect(c, s, i), i)
  {}

  lemma AttemptMovesOnly(c: Config, s: State, i: nat, reply: Reply, random: real)
    requires i in s.execs && s.execs[i].phase.Calling?
    ensures MovesOnly(s, AttemptOver(c, s, i, reply, random), i)
  {}

  lemma SendMovesOnly(c: Config, s: State, i: nat)
    requires i in s.execs
    ensures s.execs[i].phase.Claimed? ==> MovesOnly(s, AfterAsk(c, s, i), i)
    ensures forall permit, attempt :: MovesOnly(s, Sending(s, i, permit, attempt), i)
  {}

  lemma EndMovesOnly(c: Config, s: State, i: nat)
    requires i in s.execs
    ensures s.execs[i].phase.Releasing? ==> MovesOnly(s, AfterRelease(c, s, i), i)
    ensures s.execs[i].phase.Completing? ==> MovesOnly(s, AfterCommit(c, s, i), i)
    ensures forall id :: s.execs[i].phase.Settling? ==> MovesOnly(s, AfterIssue(s, i, id), i)
    ensures forall phase :: MovesOnly(s, Moved(s, i, phase), i)
  {}

  /** Apart from ticks and the provider, an action moves one live execution, and not its request. */
  lemma StepTouchesOne(c: Config, s: State, a: Action)
    requires Enabled(c, s, a) && !a.Tick? && !a.ProviderHandles?
    ensures OwnStep(c, s, a)
  {
    if !a.Arrive? {
      ClaimMovesOnly(c, s, a.i);
      SendMovesOnly(c, s, a.i);
      EndMovesOnly(c, s, a.i);
      match a
      case Receive(i, random) => AttemptMovesOnly(c, s, i, s.execs[i].phase.reply.value, random);
      case LoseReply(i, error, random) => AttemptMovesOnly(c, s, i, Failed(error), random);
      case SelectRow(i) => SelectMovesOnly(c, s, i);
      case _ =>
    }
  }

  lemma StepKeepsRequest(c: Config, s: State, a: Action, i: nat)
    requires Enabled(c, s, a) && i in s.execs
    ensures i in After(c, s, a).execs && SameRequest(s.execs[i], After(c, s, a).execs[i])
  {
    if !a.Tick? && !a.ProviderHandles? {
      StepTouchesOne(c, s, a);
    }
  }

  /** An execution that has answered or died is never moved again. */
  lemma DeadStaysDead(c: Config, s: State, a: Action, i: nat)
    requires Enabled(c, s, a) && i in s.execs && !Live(s.execs[i])
    ensures i in After(c, s, a).execs && After(c, s, a).execs[i] == s.execs[i]
  {
    if !a.Tick? && !a.ProviderHandles? {
      StepTouchesOne(c, s, a);
    }
  }

  ghost predicate Run(c: Config, states: seq<State>, actions: seq<Action>) {
    && |states| == |actions| + 1
    && states[0] == INITIALLY
    && forall n :: 0 <= n < |actions| ==>
         && Enabled(c, states[n], actions[n])
         && states[n + 1] == After(c, states[n], actions[n])
  }
}
