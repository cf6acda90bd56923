/** What the lease buys: one holder, no lost approval, and a claim that is one atomic step. */
module ProtocolClaims {
  import opened RetryPolicy
  import opened Store
  import opened Protocol
  import opened ProtocolSafety
  import opened ProtocolLease
  import ProtocolResults
  import ClaimLinearization

  /**
   * Lease exclusion. In every reachable state of a timely run at most one live execution holds the
   * claim on a key, and its row is processing, under its fingerprint, stamped with its claim time.
   */
  lemma LeaseExclusion(c: Config, states: seq<State>, actions: seq<Action>, n: nat, i: nat, j: nat)
    requires AcceptedTiming(c.timing) && TimelyRun(c, states, actions) && n < |states|
    requires i in states[n].execs && j in states[n].execs
    requires Holding(states[n].execs[i])
    ensures var s, e := states[n], states[n].execs[i];
      && HeldUnder(s.tables, e.key, c.fingerprint(e.input))
      && s.tables.operations[e.key].updatedAt == e.claimedAt
      && s.now - e.claimedAt < c.timing.processingStaleTimeoutMs
      && (Holding(s.execs[j]) && s.execs[j].key == e.key ==> i == j)
  {
    LeasedAlways(c, states, actions, n);
    assert LeaseGood(c, states[n], i);
    LiveIsYoungerThanLease(c, states[n].now, states[n].execs[i]);
  }

  /** The rest of the way once the provider has answered with a result. */
  predicate HasResult(e: Execution) {
    e.phase.Settling? || e.phase.Completing? || e.phase.Committed? ||
    (e.phase.Answered? && e.phase.answer.Created?)
  }

  lemma ResultSurvivesOwnStep(c: Config, s: State, a: Action)
    requires LeaseCoversExecution(c.timing) && Leased(c, s) && Enabled(c, s, a)
    requires !a.Tick? && !a.ProviderHandles? && !a.Arrive?
    requires HasResult(s.execs[a.i])
    ensures var e := After(c, s, a).execs[a.i]; HasResult(e) || e.phase.Gone?
  {
    if a.Commit? {
      HolderCompletes(c, s, a.i);
    }
  }

  lemma ResultSurvivesStep(c: Config, s: State, a: Action, i: nat)
    requires LeaseCoversExecution(c.timing) && Leased(c, s) && Enabled(c, s, a)
    requires i in s.execs && (HasResult(s.execs[i]) || s.execs[i].phase.Gone?)
    ensures var v := After(c, s, a);
      i in v.execs && (HasResult(v.execs[i]) || v.execs[i].phase.Gone?)
  {
    if !Live(s.execs[i]) {
      DeadStaysDead(c, s, a, i);
    } else if !a.Tick? && !a.ProviderHandles? {
      StepTouchesOne(c, s, a);
      if a.i == i {
        ResultSurvivesOwnStep(c, s, a);
      }
    }
  }

  /**
   * No lost approval. From the moment it has a provider result, an execution of a timely run either
   * dies or ends in `created: true`; "cannot be completed" is not on its way.
   */
  lemma {:induction false} ApprovalIsNeverLost(c: Config, states: seq<State>, actions: seq<Action>,
                                               n: nat, m: nat, i: nat)
    requires AcceptedTiming(c.timing) && TimelyRun(c, states, actions) && n <= m < |states|
    requires i in states[n].execs && HasResult(states[n].execs[i])
    ensures i in states[m].execs && (HasResult(states[m].execs[i]) || states[m].execs[i].phase.Gone?)
  {
    if n < m {
      ApprovalIsNeverLost(c, states, actions, n, m - 1, i);
      LeasedAlways(c, states, actions, m - 1);
      var s, a := states[m - 1], actions[m - 1];
      assert Enabled(c, s, a) && states[m] == After(c, s, a);
      ResultSurvivesStep(c, s, a, i);
    }
  }

  lemma CannotCompleteIsUnreachable(c: Config, states: seq<State>, actions: seq<Action>, n: nat, i: nat)
    requires AcceptedTiming(c.timing) && TimelyRun(c, states, actions) && n < |states| && i in states[n].execs
    ensures states[n].execs[i].phase != Answered(CannotComplete)
  {
    LeasedAlways(c, states, actions, n);
    assert LeaseGood(c, states[n], i);
  }

  // ---- The claim as one step -----------------------------------------------------------------

  predicate ClaimStatement(a: Action) {
    a.InsertRow? || a.ReclaimRow? || a.SelectRow?
  }

  predicate InClaim(p: Phase) {
    p.Inserting? || p.Reclaiming? || p.Selecting?
  }

  /**
   * In any state, each statement of a claim is one of these: it changes nothing and the claim goes
   * on; it is the atomic claim; it gives up; or it misses a reclaim.
   */
  lemma ClaimStatementsRefineAtomicClaim(c: Config, s: State, a: Action)
    requires Safe(c, s) && Enabled(c, s, a) && ClaimStatement(a)
    ensures var v, r := After(c, s, a), RequestOf(c, s.execs[a.i]);
      var p := v.execs[a.i].phase;
      || (InClaim(p) && v.tables == s.tables)
      || (v.tables == AtomicClaim(s.tables, r).0 && p == ClaimPhase(AtomicClaim(s.tables, r).1))
      || (p == ClaimPhase(ChangedDuringClaim) && v.tables == s.tables)
      || (p == ClaimPhase(InProgress) && v.tables == s.tables && AtomicClaim(s.tables, r).1.NewClaim?)
  {
    var key := s.execs[a.i].key;
    if key in s.tables.operations {
      assert RowGood(c, s, key);
    }
  }

  /** In a timely run the last case is gone: a claim that answers is the atomic claim. */
  lemma TimelyClaimIsAtomicClaim(c: Config, s: State, a: Action)
    requires LeaseCoversExecution(c.timing) && Leased(c, s) && Enabled(c, s, a) && ClaimStatement(a)
    ensures var v, r := After(c, s, a), RequestOf(c, s.execs[a.i]);
      var p := v.execs[a.i].phase;
      || (InClaim(p) && v.tables == s.tables)
      || (v.tables == AtomicClaim(s.tables, r).0 && p == ClaimPhase(AtomicClaim(s.tables, r).1))
      || (p == ClaimPhase(ChangedDuringClaim) && v.tables == s.tables)
  {
    assert LeaseGood(c, s, a.i);
    var key := s.execs[a.i].key;
    if key in s.tables.operations {
      assert RowGood(c, s, key);
    }
  }

  /** In a timely run, whatever others do to the tables is recent in the eyes of every request. */
  lemma TimelyEffectsAreRecent(c: Config, s: State, a: Action, j: nat)
    requires LeaseCoversExecution(c.timing) && Leased(c, s) && Enabled(c, s, a) && j in s.execs
    ensures ClaimLinearization.AllRecent(ProtocolResults.Effect(c, s, a), RequestOf(c, s.execs[j]))
  {
    if a.InsertRow? || a.ReclaimRow? {
      LiveClaimIsRecent(c, s, a.i, j);
    }
  }
}
