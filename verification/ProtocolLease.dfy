/**
 * The lease. With timing accepted at startup, calls that end within their timeout, sleeps that last
 * their computed delay, and everything else within the overhead, a claim has one live holder.
 */
module ProtocolLease {
  import opened Domain
  import opened RetryPolicy
  import opened Store
  import opened Protocol
  import opened ProtocolSafety

  // ---- The timing hypothesis -----------------------------------------------------------------

  /** Time may pass `e` by `ms` only within the budget of what it is doing. */
  predicate Fits(c: Config, now: int, e: Execution, ms: nat) {
    match e.phase
    case Calling(_, _, since, _) => now + ms <= since + c.timing.retry.attemptTimeoutMs
    case Sleeping(_, _, _, until) => now + ms <= until
    case Answered(_) => true
    case Gone => true
    case _ => e.overheadMs + ms <= c.timing.executionOverheadMs
  }

  ghost predicate Timely(c: Config, s: State, a: Action) {
    a.Tick? ==> forall i :: i in s.execs ==> Fits(c, s.now, s.execs[i], a.ms)
  }

  ghost predicate TimelyRun(c: Config, states: seq<State>, actions: seq<Action>) {
    && Run(c, states, actions)
    && forall n :: 0 <= n < |actions| ==> Timely(c, states[n], actions[n])
  }

  // ---- Time accounts -------------------------------------------------------------------------

  function Retry(c: Config): RetryConfig {
    c.timing.retry
  }

  /** How much of the retry window may be used up at this program counter. */
  predicate WindowOk(c: Config, now: int, e: Execution)
    requires Retry(c).maxAttempts >= 1
  {
    match e.phase
    case Inserting(_) => e.providerMs == 0
    case Reclaiming(_) => e.providerMs == 0
    case Selecting(_) => e.providerMs == 0
    case Claimed => e.providerMs == 0
    case Calling(_, attempt, since, _) =>
      && attempt <= Retry(c).maxAttempts
      && since <= now <= since + Retry(c).attemptTimeoutMs
      && e.providerMs <= WindowBefore(Retry(c), attempt) + (now - since)
    case Sleeping(_, attempt, since, until) =>
      && attempt < Retry(c).maxAttempts
      && since <= now <= until <= since + MaximumRetryDelayAfter(Retry(c), attempt)
      && e.providerMs <= WindowBefore(Retry(c), attempt) + Retry(c).attemptTimeoutMs + (now - since)
    case Answered(_) => true
    case Gone => true
    case _ => e.providerMs <= RetryWindow(Retry(c))
  }

  /** Every millisecond since the claim time is on one of the two accounts. */
  predicate TimeOk(c: Config, now: int, e: Execution)
    requires Retry(c).maxAttempts >= 1
  {
    Live(e) ==>
      && now == e.claimedAt + e.overheadMs + e.providerMs
      && 0 <= e.overheadMs <= c.timing.executionOverheadMs
      && 0 <= e.providerMs
      && WindowOk(c, now, e)
  }

  /** Where arithmetic meets protocol: a live execution is younger than the lease. */
  lemma LiveIsYoungerThanLease(c: Config, now: int, e: Execution)
    requires LeaseCoversExecution(c.timing) && TimeOk(c, now, e) && Live(e)
    ensures now - e.claimedAt <= ExecutionWindow(c.timing) < c.timing.processingStaleTimeoutMs
  {
    WindowMonotone(Retry(c), 1, Retry(c).maxAttempts);
    if e.phase.Calling? {
      WindowMonotone(Retry(c), e.phase.attempt, Retry(c).maxAttempts);
    } else if e.phase.Sleeping? {
      WindowMonotone(Retry(c), e.phase.attempt + 1, Retry(c).maxAttempts);
    }
  }

  lemma TickKeepsTime(c: Config, now: int, e: Execution, ms: nat)
    requires Retry(c).maxAttempts >= 1 && TimeOk(c, now, e) && Fits(c, now, e, ms)
    ensures TimeOk(c, now + ms, Aged(e, ms))
  {}

  lemma AttemptKeepsTime(c: Config, s: State, i: nat, reply: Reply, random: real)
    requires LeaseCoversExecution(c.timing) && ValidRandom(random)
    requires i in s.execs && s.execs[i].phase.Calling? && TimeOk(c, s.now, s.execs[i])
    ensures TimeOk(c, s.now, AttemptOver(c, s, i, reply, random).execs[i])
  {
    var attempt := s.execs[i].phase.attempt;
    DelayMonotone(Retry(c), attempt, random, attempt, 1.0);
    WindowMonotone(Retry(c), attempt, Retry(c).maxAttempts);
  }

  lemma WakeKeepsTime(c: Config, s: State, i: nat)
    requires LeaseCoversExecution(c.timing) && Enabled(c, s, Wake(i)) && TimeOk(c, s.now, s.execs[i])
    ensures TimeOk(c, s.now, After(c, s, Wake(i)).execs[i])
  {
    var p := s.execs[i].phase;
    assert WindowBefore(Retry(c), p.attempt + 1)
        == WindowBefore(Retry(c), p.attempt) + Retry(c).attemptTimeoutMs + MaximumRetryDelayAfter(Retry(c), p.attempt);
  }

  lemma WriteKeepsTime(c: Config, s: State, a: Action)
    requires Retry(c).maxAttempts >= 1 && Enabled(c, s, a) && (a.InsertRow? || a.ReclaimRow?)
    requires TimeOk(c, s.now, s.execs[a.i])
    ensures TimeOk(c, s.now, After(c, s, a).execs[a.i])
  {}

  lemma SelectKeepsTime(c: Config, s: State, i: nat)
    requires Retry(c).maxAttempts >= 1 && Enabled(c, s, SelectRow(i)) && TimeOk(c, s.now, s.execs[i])
    ensures TimeOk(c, s.now, AfterSelect(c, s, i).execs[i])
  {}

  lemma OtherStepKeepsTime(c: Config, s: State, a: Action)
    requires LeaseCoversExecution(c.timing) && Enabled(c, s, a)
    requires a.AskBreaker? || a.Release? || a.IssueId? || a.Commit? || a.Respond? || a.Abandon?
    requires TimeOk(c, s.now, s.execs[a.i])
    ensures TimeOk(c, s.now, After(c, s, a).execs[a.i])
  {
    WindowMonotone(Retry(c), 1, Retry(c).maxAttempts);
  }

  lemma OwnStepKeepsTime(c: Config, s: State, a: Action)
    requires LeaseCoversExecution(c.timing) && Enabled(c, s, a) && !a.Tick? && !a.ProviderHandles?
    requires !a.Arrive? ==> TimeOk(c, s.now, s.execs[a.i])
    ensures a.i in After(c, s, a).execs && TimeOk(c, s.now, After(c, s, a).execs[a.i])
  {
    match a
    case Arrive(_, _, _, _) =>
    case Receive(i, random) => AttemptKeepsTime(c, s, i, s.execs[i].phase.reply.value, random);
    case LoseReply(i, error, random) => AttemptKeepsTime(c, s, i, Failed(error), random);
    case Wake(i) => WakeKeepsTime(c, s, i);
    case InsertRow(_) => WriteKeepsTime(c, s, a);
    case ReclaimRow(_) => WriteKeepsTime(c, s, a);
    case SelectRow(i) => SelectKeepsTime(c, s, i);
    case _ => OtherStepKeepsTime(c, s, a);
  }

  ghost predicate AllTimeOk(c: Config, s: State)
    requires Retry(c).maxAttempts >= 1
  {
    forall i :: i in s.execs ==> TimeOk(c, s.now, s.execs[i])
  }

  /** An execution's own step does not touch the time accounts of the others. */
  lemma OthersKeepTime(c: Config, s: State, v: State, i: nat)
    requires Retry(c).maxAttempts >= 1 && AllTimeOk(c, s) && OnlyTouches(s, v, i)
    requires TimeOk(c, v.now, v.execs[i])
    ensures AllTimeOk(c, v)
  {
    forall x | x in v.execs
      ensures TimeOk(c, v.now, v.execs[x])
    {
      assert x != i ==> x in s.execs;
    }
  }

  lemma TickKeepsAllTime(c: Config, s: State, ms: nat)
    requires LeaseCoversExecution(c.timing) && Timely(c, s, Tick(ms)) && AllTimeOk(c, s)
    ensures AllTimeOk(c, AfterTick(s, ms))
  {
    forall i | i in s.execs
      ensures TimeOk(c, s.now + ms, Aged(s.execs[i], ms))
    {
      TickKeepsTime(c, s.now, s.execs[i], ms);
    }
  }

  lemma ProviderKeepsTime(c: Config, s: State, m: Sent, recorded: Option<Text>, reply: Reply)
    requires Retry(c).maxAttempts >= 1 && AllTimeOk(c, s)
    ensures AllTimeOk(c, AfterProvider(s, m, recorded, reply))
  {
    var v := AfterProvider(s, m, recorded, reply);
    forall x | x in v.execs
      ensures TimeOk(c, v.now, v.execs[x])
    {
      assert TimeOk(c, s.now, s.execs[x]);
    }
  }

  lemma MoverKeepsTime(c: Config, s: State, a: Action)
    requires LeaseCoversExecution(c.timing) && Enabled(c, s, a) && AllTimeOk(c, s)
    requires !a.Tick? && !a.ProviderHandles?
    ensures AllTimeOk(c, After(c, s, a))
  {
    StepTouchesOne(c, s, a);
    assert !a.Arrive? ==> TimeOk(c, s.now, s.execs[a.i]);
    OwnStepKeepsTime(c, s, a);
    OthersKeepTime(c, s, After(c, s, a), a.i);
  }

  lemma StepKeepsTime(c: Config, s: State, a: Action)
    requires LeaseCoversExecution(c.timing) && Enabled(c, s, a) && Timely(c, s, a) && AllTimeOk(c, s)
    ensures AllTimeOk(c, After(c, s, a))
  {
    if a.Tick? {
      TickKeepsAllTime(c, s, a.ms);
    } else if a.ProviderHandles? {
      ProviderKeepsTime(c, s, a.sent, a.recorded, a.reply);
    } else {
      MoverKeepsTime(c, s, a);
    }
  }

  // ---- Lease exclusion -----------------------------------------------------------------------

  /** The holder's row is processing, under its fingerprint, stamped with its claim time. */
  predicate HolderOk(c: Config, t: Tables, e: Execution) {
    Holding(e) ==>
      && HeldUnder(t, e.key, c.fingerprint(e.input))
      && t.operations[e.key].updatedAt == e.claimedAt
  }

  /** Between a failed reclaim and the SELECT, the row does not become reclaimable. */
  predicate SelectOk(c: Config, t: Tables, e: Execution) {
    e.phase.Selecting? ==> !Stale(t, RequestOf(c, e))
  }

  predicate NothingLost(e: Execution) {
    e.phase != Answered(CannotComplete)
  }

  ghost predicate Exclusive(s: State) {
    forall i, j ::
      (i in s.execs && j in s.execs && Holding(s.execs[i]) && Holding(s.execs[j])
       && s.execs[i].key == s.execs[j].key)
        ==> i == j
  }

  predicate LeaseGood(c: Config, s: State, i: nat)
    requires i in s.execs
  {
    HolderOk(c, s.tables, s.execs[i]) && SelectOk(c, s.tables, s.execs[i]) && NothingLost(s.execs[i])
  }

  ghost predicate LeaseOk(c: Config, s: State) {
    && Exclusive(s)
    && forall i :: i in s.execs ==> LeaseGood(c, s, i)
  }

  ghost predicate Leased(c: Config, s: State)
    requires Retry(c).maxAttempts >= 1
  {
    Safe(c, s) && AllTimeOk(c, s) && LeaseOk(c, s)
  }

  /** A row that is reclaimable by a live execution has no live holder, and a missing row has none either. */
  lemma ClaimableHasNoHolder(c: Config, s: State, i: nat, j: nat)
    requires LeaseCoversExecution(c.timing) && Leased(c, s)
    requires i in s.execs && j in s.execs && Live(s.execs[i]) && s.execs[i].key == s.execs[j].key
    requires s.execs[i].key !in s.tables.operations || Stale(s.tables, RequestOf(c, s.execs[i]))
    ensures !Holding(s.execs[j])
  {
    assert LeaseGood(c, s, j) && ExecGood(c, s, i);
    if Holding(s.execs[j]) {
      LiveIsYoungerThanLease(c, s.now, s.execs[j]);
    }
  }

  /** The claim time of a live execution lies inside everybody's lease window. */
  lemma LiveClaimIsRecent(c: Config, s: State, i: nat, j: nat)
    requires LeaseCoversExecution(c.timing) && Safe(c, s) && AllTimeOk(c, s)
    requires i in s.execs && j in s.execs && Live(s.execs[i])
    ensures s.execs[i].claimedAt > RequestOf(c, s.execs[j]).staleBefore
  {
    LiveIsYoungerThanLease(c, s.now, s.execs[i]);
    assert ExecGood(c, s, j);
  }

  /** A step that neither writes the tables nor starts holding keeps the lease. */
  lemma QuietStepKeepsLease(c: Config, s: State, v: State, i: nat)
    requires LeaseOk(c, s) && OnlyTouches(s, v, i) && v.tables == s.tables
    requires LeaseGood(c, v, i)
    requires Holding(v.execs[i]) ==> i in s.execs && Holding(s.execs[i]) && v.execs[i].key == s.execs[i].key
    ensures LeaseOk(c, v)
  {
    forall x | x in v.execs
      ensures LeaseGood(c, v, x)
    {
      if x != i {
        assert LeaseGood(c, s, x);
      }
    }
  }

  lemma ClaimKeepsExclusion(c: Config, s: State, v: State, i: nat)
    requires LeaseCoversExecution(c.timing) && Leased(c, s) && OnlyTouches(s, v, i)
    requires i in s.execs && Live(s.execs[i]) && !Holding(s.execs[i]) && v.execs[i].key == s.execs[i].key
    requires Holding(v.execs[i]) ==>
      s.execs[i].key !in s.tables.operations || Stale(s.tables, RequestOf(c, s.execs[i]))
    ensures Exclusive(v)
  {
    if Holding(v.execs[i]) {
      forall j | j in s.execs && s.execs[j].key == s.execs[i].key
        ensures !Holding(s.execs[j])
      {
        ClaimableHasNoHolder(c, s, i, j);
      }
    }
  }

  lemma InsertKeepsOther(c: Config, s: State, i: nat, x: nat)
    requires LeaseCoversExecution(c.timing) && Leased(c, s) && Enabled(c, s, InsertRow(i))
    requires x in s.execs && x != i
    ensures LeaseGood(c, AfterInsert(c, s, i), x)
  {
    assert LeaseGood(c, s, x);
    LiveClaimIsRecent(c, s, i, x);
  }

  lemma InsertKeepsLease(c: Config, s: State, i: nat)
    requires LeaseCoversExecution(c.timing) && Leased(c, s) && Enabled(c, s, InsertRow(i))
    ensures LeaseOk(c, AfterInsert(c, s, i))
  {
    var v := AfterInsert(c, s, i);
    ClaimMovesOnly(c, s, i);
    forall x | x in v.execs
      ensures LeaseGood(c, v, x)
    {
      if x != i {
        InsertKeepsOther(c, s, i, x);
      }
    }
    ClaimKeepsExclusion(c, s, v, i);
  }

  lemma ReclaimKeepsOther(c: Config, s: State, i: nat, x: nat)
    requires LeaseCoversExecution(c.timing) && Leased(c, s) && Enabled(c, s, ReclaimRow(i))
    requires x in s.execs && x != i
    ensures LeaseGood(c, AfterReclaim(c, s, i), x)
  {
    assert LeaseGood(c, s, x);
    LiveClaimIsRecent(c, s, i, x);
    if s.execs[x].key == s.execs[i].key && Stale(s.tables, RequestOf(c, s.execs[i])) {
      ClaimableHasNoHolder(c, s, i, x);
    }
  }

  lemma ReclaimKeepsLease(c: Config, s: State, i: nat)
    requires LeaseCoversExecution(c.timing) && Leased(c, s) && Enabled(c, s, ReclaimRow(i))
    ensures LeaseOk(c, AfterReclaim(c, s, i))
  {
    var v := AfterReclaim(c, s, i);
    forall x | x in v.execs
      ensures LeaseGood(c, v, x)
    {
      assert LeaseGood(c, s, x);
      if x != i {
        ReclaimKeepsOther(c, s, i, x);
      }
    }
    ClaimKeepsExclusion(c, s, v, i);
  }

  lemma SelectLeavesGood(c: Config, s: State, i: nat)
    requires Enabled(c, s, SelectRow(i))
    ensures LeaseGood(c, AfterSelect(c, s, i), i) && !Holding(AfterSelect(c, s, i).execs[i])
  {}

  lemma SelectKeepsLease(c: Config, s: State, i: nat)
    requires LeaseOk(c, s) && Enabled(c, s, SelectRow(i))
    ensures LeaseOk(c, AfterSelect(c, s, i))
  {
    StepTouchesOne(c, s, SelectRow(i));
    SelectLeavesGood(c, s, i);
    QuietStepKeepsLease(c, s, AfterSelect(c, s, i), i);
  }

  /** The holder settles its row: by completing it or by deleting it. Other keys are not concerned. */
  lemma SettlingKeepsOthers(c: Config, s: State, v: State, i: nat, x: nat)
    requires LeaseOk(c, s) && OnlyTouches(s, v, i) && x != i
    requires i in s.execs && Holding(s.execs[i]) && x in s.execs
    requires forall k :: k != s.execs[i].key ==>
      (k in v.tables.operations <==> k in s.tables.operations) &&
      (k in s.tables.operations ==> v.tables.operations[k] == s.tables.operations[k])
    requires s.execs[i].key in v.tables.operations ==> v.tables.operations[s.execs[i].key].status.Completed?
    ensures LeaseGood(c, v, x)
  {
    assert LeaseGood(c, s, x);
  }

  lemma ReleaseKeepsLease(c: Config, s: State, i: nat)
    requires Retry(c).maxAttempts >= 1 && Leased(c, s) && Enabled(c, s, Action.Release(i))
    ensures LeaseOk(c, AfterRelease(c, s, i))
  {
    var v := AfterRelease(c, s, i);
    assert LeaseGood(c, s, i);
    forall x | x in v.execs
      ensures LeaseGood(c, v, x)
    {
      if x != i {
        SettlingKeepsOthers(c, s, v, i, x);
      }
    }
  }

  /** The completion of a live holder always goes through. */
  lemma HolderCompletes(c: Config, s: State, i: nat)
    requires Retry(c).maxAttempts >= 1 && Leased(c, s) && Enabled(c, s, Action.Commit(i))
    ensures CompletionCommits(s.tables, CompletionOf(c, s.execs[i]))
  {
    assert LeaseGood(c, s, i) && ExecGood(c, s, i);
    assert RowGood(c, s, s.execs[i].key);
  }

  lemma CommitKeepsLease(c: Config, s: State, i: nat)
    requires Retry(c).maxAttempts >= 1 && Leased(c, s) && Enabled(c, s, Action.Commit(i))
    ensures LeaseOk(c, AfterCommit(c, s, i))
  {
    var v := AfterCommit(c, s, i);
    HolderCompletes(c, s, i);
    EndMovesOnly(c, s, i);
    assert !Holding(v.execs[i]) && LeaseGood(c, v, i);
    forall x | x in v.execs
      ensures LeaseGood(c, v, x)
    {
      if x != i {
        SettlingKeepsOthers(c, s, v, i, x);
      }
    }
  }

  predicate IsLocal(a: Action) {
    || a.Arrive? || a.AskBreaker? || a.Receive? || a.LoseReply?
    || a.Wake? || a.IssueId? || a.Respond? || a.Abandon?
  }

  /** The mover is still good, and holds only if it held. */
  ghost predicate MoverOk(c: Config, s: State, v: State, i: nat) {
    && i in v.execs && v.tables == s.tables && LeaseGood(c, v, i)
    && (Holding(v.execs[i]) ==> i in s.execs && Holding(s.execs[i]) && v.execs[i].key == s.execs[i].key)
  }

  lemma CallingStepLeavesGood(c: Config, s: State, a: Action)
    requires Enabled(c, s, a) && (a.AskBreaker? || a.Receive? || a.LoseReply? || a.Wake?)
    requires LeaseGood(c, s, a.i)
    ensures MoverOk(c, s, After(c, s, a), a.i)
  {}

  lemma EndingStepLeavesGood(c: Config, s: State, a: Action)
    requires Enabled(c, s, a) && (a.Arrive? || a.IssueId? || a.Respond? || a.Abandon?)
    requires !a.Arrive? ==> LeaseGood(c, s, a.i)
    ensures MoverOk(c, s, After(c, s, a), a.i)
  {}

  lemma LocalStepKeepsLease(c: Config, s: State, a: Action)
    requires LeaseOk(c, s) && Enabled(c, s, a) && IsLocal(a)
    ensures LeaseOk(c, After(c, s, a))
  {
    StepTouchesOne(c, s, a);
    if !a.Arrive? {
      assert LeaseGood(c, s, a.i);
    }
    if a.AskBreaker? || a.Receive? || a.LoseReply? || a.Wake? {
      CallingStepLeavesGood(c, s, a);
    } else {
      EndingStepLeavesGood(c, s, a);
    }
    QuietStepKeepsLease(c, s, After(c, s, a), a.i);
  }

  predicate SameClaim(e: Execution, f: Execution) {
    SameRequest(e, f) && (f.phase == e.phase || (f.phase.Calling? && e.phase.Calling?))
  }

  /** A step that moves nobody's claim, as ticks and the provider do. */
  ghost predicate MovesNobody(s: State, v: State) {
    && v.tables == s.tables && v.execs.Keys == s.execs.Keys
    && forall x :: x in v.execs ==> SameClaim(s.execs[x], v.execs[x])
  }

  lemma SharedStepKeepsLease(c: Config, s: State, v: State)
    requires LeaseOk(c, s) && MovesNobody(s, v)
    ensures LeaseOk(c, v)
  {
    forall x | x in v.execs
      ensures LeaseGood(c, v, x)
    {
      assert LeaseGood(c, s, x) && SameClaim(s.execs[x], v.execs[x]);
    }
  }

  lemma TickMovesNobody(s: State, ms: nat)
    ensures MovesNobody(s, AfterTick(s, ms))
  {}

  lemma ProviderMovesNobody(s: State, m: Sent, recorded: Option<Text>, reply: Reply)
    ensures MovesNobody(s, AfterProvider(s, m, recorded, reply))
  {}

  lemma StepKeepsLeaseOk(c: Config, s: State, a: Action)
    requires LeaseCoversExecution(c.timing) && Leased(c, s) && Enabled(c, s, a)
    ensures LeaseOk(c, After(c, s, a))
  {
    match a
    case InsertRow(i) => InsertKeepsLease(c, s, i);
    case ReclaimRow(i) => ReclaimKeepsLease(c, s, i);
    case SelectRow(i) => SelectKeepsLease(c, s, i);
    case Release(i) => ReleaseKeepsLease(c, s, i);
    case Commit(i) => CommitKeepsLease(c, s, i);
    case Tick(ms) =>
      TickMovesNobody(s, ms);
      SharedStepKeepsLease(c, s, AfterTick(s, ms));
    case ProviderHandles(m, recorded, reply) =>
      ProviderMovesNobody(s, m, recorded, reply);
      SharedStepKeepsLease(c, s, AfterProvider(s, m, recorded, reply));
    case _ => LocalStepKeepsLease(c, s, a);
  }

  lemma StepKeepsLease(c: Config, s: State, a: Action)
    requires LeaseCoversExecution(c.timing) && Leased(c, s) && Enabled(c, s, a) && Timely(c, s, a)
    ensures Leased(c, After(c, s, a))
  {
    WindowMonotone(Retry(c), 1, Retry(c).maxAttempts);
    StepKeepsSafe(c, s, a);
    StepKeepsTime(c, s, a);
    StepKeepsLeaseOk(c, s, a);
  }

  lemma {:induction false} LeasedAlways(c: Config, states: seq<State>, actions: seq<Action>, n: nat)
    requires LeaseCoversExecution(c.timing) && TimelyRun(c, states, actions) && n < |states|
    ensures Leased(c, states[n])
  {
    if n > 0 {
      LeasedAlways(c, states, actions, n - 1);
      assert Timely(c, states[n - 1], actions[n - 1]);
      StepKeepsLease(c, states[n - 1], actions[n - 1]);
    }
  }
}
