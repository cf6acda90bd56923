/**
 * The claim inside a run. Whatever the other executions do meanwhile, an execution that goes through
 * the claim statements gets what the repository's claim gives under exactly that interference.
 */
module ProtocolLinearization {
  import opened Store
  import opened ClaimLinearization
  import opened RetryPolicy
  import opened Protocol
  import opened ProtocolSafety
  import opened ProtocolLease
  import opened ProtocolClaims
  import ProtocolResults

  const NOBODY: seq<seq<DbAction>> := [[], [], [], [], [], []]

  /** At one of the claim's six statements. */
  predicate AtStatement(p: Phase) {
    match p
    case Inserting(round) => round < 2
    case Reclaiming(round) => round < 2
    case Selecting(round) => round < 2
    case _ => false
  }

  /** Which of the six it is. */
  function Statement(p: Phase): (n: nat)
    requires AtStatement(p)
    ensures n < 6
  {
    match p
    case Inserting(round) => 3 * round
    case Reclaiming(round) => 3 * round + 1
    case Selecting(round) => 3 * round + 2
  }

  /** What the repository's claim does from this program counter on. */
  function Rest(t: Tables, r: ClaimRequest, p: Phase, gaps: seq<seq<DbAction>>): ClaimTrace
    requires |gaps| == 6 && AtStatement(p)
  {
    match p
    case Inserting(round) => Rounds(t, r, gaps, round)
    case Reclaiming(round) => FromReclaim(t, r, gaps, round)
    case Selecting(round) => FromSelect(t, r, gaps, round)
  }

  ghost predicate NothingBefore(gaps: seq<seq<DbAction>>, n: nat) {
    |gaps| == 6 && forall j :: 0 <= j < n && j < 6 ==> gaps[j] == []
  }

  // ---- A step of another execution -----------------------------------------------------------

  lemma {:induction false} LaterRoundsIgnore(t: Tables, r: ClaimRequest, gaps: seq<seq<DbAction>>,
                                             n: nat, gap: seq<DbAction>, round: nat)
    requires |gaps| == 6 && n < 6 && round <= 2
    ensures n < 3 * round ==> Rounds(t, r, gaps[n := gap], round) == Rounds(t, r, gaps, round)
    ensures n < 3 * round + 1 && round < 2 ==>
      FromReclaim(t, r, gaps[n := gap], round) == FromReclaim(t, r, gaps, round)
    ensures n < 3 * round + 2 && round < 2 ==>
      FromSelect(t, r, gaps[n := gap], round) == FromSelect(t, r, gaps, round)
    decreases 2 - round
  {
    if round < 2 {
      SelectIgnores(t, r, gaps, n, gap, round);
      forall u
        ensures n < 3 * round + 1 ==> FromReclaim(u, r, gaps[n := gap], round) == FromReclaim(u, r, gaps, round)
      {
        SelectIgnores(ClaimLinearization.PerformAll(u, gaps[3 * round + 1]), r, gaps, n, gap, round);
      }
    }
  }

  lemma {:induction false} SelectIgnores(t: Tables, r: ClaimRequest, gaps: seq<seq<DbAction>>,
                                         n: nat, gap: seq<DbAction>, round: nat)
    requires |gaps| == 6 && n < 6 && round < 2
    ensures n < 3 * round + 2 ==> FromSelect(t, r, gaps[n := gap], round) == FromSelect(t, r, gaps, round)
    decreases 2 - round, 0
  {
    if n < 3 * round + 2 {
      LaterRoundsIgnore(ClaimLinearization.PerformAll(t, gaps[3 * round + 2]), r, gaps, n, gap, round + 1);
    }
  }

  lemma InsertGapWidens(t: Tables, r: ClaimRequest, gaps: seq<seq<DbAction>>, round: nat, done: seq<DbAction>)
    requires |gaps| == 6 && round < 2
    ensures Rounds(t, r, gaps[3 * round := done + gaps[3 * round]], round)
         == Rounds(ClaimLinearization.PerformAll(t, done), r, gaps, round)
  {
    var n := 3 * round;
    PerformAppend(t, done, gaps[n], r.key);
    LaterRoundsIgnore(ClaimLinearization.PerformAll(t, done + gaps[n]), r, gaps, n, done + gaps[n], round);
  }

  lemma ReclaimGapWidens(t: Tables, r: ClaimRequest, gaps: seq<seq<DbAction>>, round: nat, done: seq<DbAction>)
    requires |gaps| == 6 && round < 2
    ensures FromReclaim(t, r, gaps[3 * round + 1 := done + gaps[3 * round + 1]], round)
         == FromReclaim(ClaimLinearization.PerformAll(t, done), r, gaps, round)
  {
    var n := 3 * round + 1;
    PerformAppend(t, done, gaps[n], r.key);
    SelectIgnores(ClaimLinearization.PerformAll(t, done + gaps[n]), r, gaps, n, done + gaps[n], round);
  }

  lemma SelectGapWidens(t: Tables, r: ClaimRequest, gaps: seq<seq<DbAction>>, round: nat, done: seq<DbAction>)
    requires |gaps| == 6 && round < 2
    ensures FromSelect(t, r, gaps[3 * round + 2 := done + gaps[3 * round + 2]], round)
         == FromSelect(ClaimLinearization.PerformAll(t, done), r, gaps, round)
  {
    var n := 3 * round + 2;
    PerformAppend(t, done, gaps[n], r.key);
    LaterRoundsIgnore(ClaimLinearization.PerformAll(t, done + gaps[n]), r, gaps, n, done + gaps[n], round + 1);
  }

  /** What somebody does just before the claim's next statement belongs to the gap before it. */
  lemma OthersWidenTheGap(t: Tables, r: ClaimRequest, p: Phase, gaps: seq<seq<DbAction>>, done: seq<DbAction>)
    requires |gaps| == 6 && AtStatement(p)
    ensures var n := Statement(p);
      Rest(t, r, p, gaps[n := done + gaps[n]]) == Rest(ClaimLinearization.PerformAll(t, done), r, p, gaps)
  {
    match p
    case Inserting(round) => InsertGapWidens(t, r, gaps, round, done);
    case Reclaiming(round) => ReclaimGapWidens(t, r, gaps, round, done);
    case Selecting(round) => SelectGapWidens(t, r, gaps, round, done);
  }

  lemma {:induction false} FlattenWidened(gaps: seq<seq<DbAction>>, n: nat, done: seq<DbAction>)
    requires n < |gaps| && forall j :: 0 <= j < n ==> gaps[j] == []
    ensures Flatten(gaps[n := done + gaps[n]]) == done + Flatten(gaps)
    decreases n
  {
    if n > 0 {
      FlattenWidened(gaps[1..], n - 1, done);
      assert gaps[n := done + gaps[n]][1..] == gaps[1..][n - 1 := done + gaps[1..][n - 1]];
    } else {
      assert gaps[0 := done + gaps[0]][1..] == gaps[1..];
    }
  }

  // ---- A step of the execution itself --------------------------------------------------------

  /**
   * A statement at program counter p, on tables t, leads to program counter q and tables u. If it
   * decides nothing it leaves the rest of the claim to do; if it decides, it ends the claim.
   */
  ghost predicate Advances(t: Tables, r: ClaimRequest, p: Phase, gaps: seq<seq<DbAction>>, u: Tables, q: Phase)
    requires AtStatement(p) && |gaps| == 6
  {
    if AtStatement(q) then
      Statement(p) < Statement(q) && u == t && Rest(t, r, p, gaps) == Rest(t, r, q, gaps)
    else
      var trace := Rest(t, r, p, gaps);
      q == ClaimPhase(trace.result) && u == trace.after
  }

  lemma InsertAdvances(t: Tables, r: ClaimRequest, round: nat, gaps: seq<seq<DbAction>>)
    requires round < 2 && |gaps| == 6 && gaps[3 * round] == []
    ensures var (u, inserted) := InsertOperation(t, r);
      Advances(t, r, Inserting(round), gaps, u, if inserted then Claimed else Reclaiming(round))
  {}

  lemma ReclaimAdvances(t: Tables, r: ClaimRequest, round: nat, gaps: seq<seq<DbAction>>)
    requires round < 2 && |gaps| == 6 && gaps[3 * round + 1] == []
    ensures var (u, reclaimed) := ReclaimOperation(t, r);
      Advances(t, r, Reclaiming(round), gaps, u, if reclaimed then Claimed else Selecting(round))
  {}

  lemma SelectAdvances(t: Tables, r: ClaimRequest, round: nat, gaps: seq<seq<DbAction>>)
    requires round < 2 && |gaps| == 6 && gaps[3 * round + 2] == []
    ensures Advances(t, r, Selecting(round), gaps, t, SelectPhase(t, r, round))
  {
    assert ClaimLinearization.PerformAll(t, gaps[3 * round + 2]) == t;
    if SelectOperation(t, r).None? {
      assert FromSelect(t, r, gaps, round) == Rounds(t, r, gaps, round + 1);
    }
  }

  lemma StatementAdvances(c: Config, s: State, a: Action, gaps: seq<seq<DbAction>>)
    requires Enabled(c, s, a) && ClaimStatement(a) && AtStatement(s.execs[a.i].phase)
    requires |gaps| == 6 && gaps[Statement(s.execs[a.i].phase)] == []
    ensures a.i in After(c, s, a).execs
    ensures var e, v := s.execs[a.i], After(c, s, a);
      Advances(s.tables, RequestOf(c, e), e.phase, gaps, v.tables, v.execs[a.i].phase)
  {
    var r, round := RequestOf(c, s.execs[a.i]), s.execs[a.i].phase.round;
    match a
    case InsertRow(_) => InsertAdvances(s.tables, r, round, gaps);
    case ReclaimRow(_) => ReclaimAdvances(s.tables, r, round, gaps);
    case SelectRow(_) => SelectAdvances(s.tables, r, round, gaps);
  }

  // ---- The whole claim -----------------------------------------------------------------------

  /** What everybody but `i` commits in steps from..end. */
  ghost function OthersDid(c: Config, states: seq<State>, actions: seq<Action>, i: nat, from: nat, end: nat)
    : seq<DbAction>
    requires Run(c, states, actions) && from <= end <= |actions|
    decreases end - from
  {
    if from == end then []
    else
      (if Moves(actions[from], i) then [] else ProtocolResults.Effect(c, states[from], actions[from]))
      + OthersDid(c, states, actions, i, from + 1, end)
  }

  /** Execution `i` is at a statement of its claim from step `from` on, and has its result at `end`. */
  ghost predicate ClaimSpan(states: seq<State>, i: nat, from: nat, end: nat) {
    && from < end < |states|
    && (forall j :: from <= j < end ==> i in states[j].execs && AtStatement(states[j].execs[i].phase))
    && i in states[end].execs && !AtStatement(states[end].execs[i].phase) && !states[end].execs[i].phase.Gone?
  }

  /** From here on, with these gaps, the repository's claim goes as in `trace`. */
  ghost predicate Leads(t: Tables, r: ClaimRequest, p: Phase, gaps: seq<seq<DbAction>>, trace: ClaimTrace)
    requires AtStatement(p)
  {
    NothingBefore(gaps, Statement(p)) && trace == Rest(t, r, p, gaps)
  }

  lemma AdvancingLeads(t: Tables, r: ClaimRequest, p: Phase, gaps: seq<seq<DbAction>>, u: Tables, q: Phase,
                       trace: ClaimTrace)
    requires AtStatement(p) && AtStatement(q) && |gaps| == 6
    requires Advances(t, r, p, gaps, u, q) && Leads(u, r, q, gaps, trace)
    ensures Leads(t, r, p, gaps, trace)
  {}

  lemma WideningLeads(t: Tables, r: ClaimRequest, p: Phase, gaps: seq<seq<DbAction>>, done: seq<DbAction>,
                      trace: ClaimTrace)
    requires AtStatement(p) && Leads(ClaimLinearization.PerformAll(t, done), r, p, gaps, trace)
    ensures var n := Statement(p);
      && Leads(t, r, p, gaps[n := done + gaps[n]], trace)
      && Flatten(gaps[n := done + gaps[n]]) == done + Flatten(gaps)
  {
    OthersWidenTheGap(t, r, p, gaps, done);
    FlattenWidened(gaps, Statement(p), done);
  }

  lemma OwnStepIsStatement(c: Config, s: State, a: Action, i: nat)
    requires Enabled(c, s, a) && Moves(a, i) && i in s.execs && AtStatement(s.execs[i].phase)
    ensures i in After(c, s, a).execs
    ensures !After(c, s, a).execs[i].phase.Gone? ==> ClaimStatement(a)
  {}

  /** The same of the claim of execution `i` in state `s`. */
  ghost predicate Follows(c: Config, s: State, i: nat, gaps: seq<seq<DbAction>>, trace: ClaimTrace)
    requires i in s.execs && AtStatement(s.execs[i].phase)
  {
    Leads(s.tables, RequestOf(c, s.execs[i]), s.execs[i].phase, gaps, trace)
  }

  lemma StatementsGoForward(c: Config, s: State, a: Action)
    requires Enabled(c, s, a) && ClaimStatement(a) && AtStatement(s.execs[a.i].phase)
    requires a.i in After(c, s, a).execs && AtStatement(After(c, s, a).execs[a.i].phase)
    ensures Statement(s.execs[a.i].phase) < Statement(After(c, s, a).execs[a.i].phase)
  {
    StatementAdvances(c, s, a, NOBODY);
  }

  /** A statement that decides nothing. */
  lemma OwnStepFollows(c: Config, s: State, a: Action, gaps: seq<seq<DbAction>>, trace: ClaimTrace)
    requires Enabled(c, s, a) && ClaimStatement(a) && AtStatement(s.execs[a.i].phase)
    requires a.i in After(c, s, a).execs && AtStatement(After(c, s, a).execs[a.i].phase)
    requires Follows(c, After(c, s, a), a.i, gaps, trace)
    ensures Follows(c, s, a.i, gaps, trace)
  {
    var e, v := s.execs[a.i], After(c, s, a);
    StepKeepsRequest(c, s, a, a.i);
    StatementsGoForward(c, s, a);
    StatementAdvances(c, s, a, gaps);
    AdvancingLeads(s.tables, RequestOf(c, e), e.phase, gaps, v.tables, v.execs[a.i].phase, trace);
  }

  /** A statement that decides, with nobody else about. */
  lemma LastStepFollows(c: Config, s: State, a: Action) returns (trace: ClaimTrace)
    requires Enabled(c, s, a) && ClaimStatement(a) && AtStatement(s.execs[a.i].phase)
    requires a.i in After(c, s, a).execs && !AtStatement(After(c, s, a).execs[a.i].phase)
    ensures Follows(c, s, a.i, NOBODY, trace)
    ensures After(c, s, a).execs[a.i].phase == ClaimPhase(trace.result) && After(c, s, a).tables == trace.after
  {
    StatementAdvances(c, s, a, NOBODY);
    trace := Rest(s.tables, RequestOf(c, s.execs[a.i]), s.execs[a.i].phase, NOBODY);
  }

  lemma OtherStepFollows(c: Config, s: State, a: Action, i: nat, gaps: seq<seq<DbAction>>, trace: ClaimTrace)
    returns (wider: seq<seq<DbAction>>)
    requires Enabled(c, s, a) && !Moves(a, i) && i in s.execs && AtStatement(s.execs[i].phase)
    requires var v := After(c, s, a);
      i in v.execs && v.execs[i].phase == s.execs[i].phase && Follows(c, v, i, gaps, trace)
    ensures Follows(c, s, i, wider, trace)
    ensures Flatten(wider) == ProtocolResults.Effect(c, s, a) + Flatten(gaps)
  {
    var n, done := Statement(s.execs[i].phase), ProtocolResults.Effect(c, s, a);
    ProtocolResults.StepsAreDbActions(c, s, a);
    StepKeepsRequest(c, s, a, i);
    WideningLeads(s.tables, RequestOf(c, s.execs[i]), s.execs[i].phase, gaps, done, trace);
    wider := gaps[n := done + gaps[n]];
  }

  lemma OtherStepLeaves(c: Config, s: State, a: Action, i: nat)
    requires Enabled(c, s, a) && !Moves(a, i) && i in s.execs && AtStatement(s.execs[i].phase)
    ensures var v := After(c, s, a); i in v.execs && v.execs[i].phase == s.execs[i].phase
  {
    if !a.Tick? && !a.ProviderHandles? {
      StepTouchesOne(c, s, a);
    }
  }

  /** One step back, whoever made it. */
  lemma StepFollows(c: Config, s: State, a: Action, i: nat, gaps: seq<seq<DbAction>>, trace: ClaimTrace)
    returns (earlier: seq<seq<DbAction>>)
    requires Enabled(c, s, a) && i in s.execs && AtStatement(s.execs[i].phase)
    requires var v := After(c, s, a);
      i in v.execs && AtStatement(v.execs[i].phase) && Follows(c, v, i, gaps, trace)
    ensures Follows(c, s, i, earlier, trace)
    ensures Flatten(earlier) == (if Moves(a, i) then [] else ProtocolResults.Effect(c, s, a)) + Flatten(gaps)
  {
    if Moves(a, i) {
      OwnStepIsStatement(c, s, a, i);
      OwnStepFollows(c, s, a, gaps, trace);
      earlier := gaps;
    } else {
      OtherStepLeaves(c, s, a, i);
      earlier := OtherStepFollows(c, s, a, i, gaps, trace);
    }
  }

  lemma LastStepIsOwn(c: Config, s: State, a: Action, i: nat)
    requires Enabled(c, s, a) && i in s.execs && AtStatement(s.execs[i].phase)
    requires var v := After(c, s, a);
      i in v.execs && !AtStatement(v.execs[i].phase) && !v.execs[i].phase.Gone?
    ensures Moves(a, i) && ClaimStatement(a)
  {
    if !Moves(a, i) {
      OtherStepLeaves(c, s, a, i);
    }
    OwnStepIsStatement(c, s, a, i);
  }

  /** The rest of the claim, from any of its statements. */
  lemma {:induction false} SpanIsExplained(c: Config, states: seq<State>, actions: seq<Action>, i: nat,
                                           from: nat, end: nat)
    returns (gaps: seq<seq<DbAction>>, trace: ClaimTrace)
    requires Run(c, states, actions) && ClaimSpan(states, i, from, end)
    ensures Follows(c, states[from], i, gaps, trace)
    ensures states[end].execs[i].phase == ClaimPhase(trace.result) && states[end].tables == trace.after
    ensures Flatten(gaps) == OthersDid(c, states, actions, i, from, end)
    decreases end - from
  {
    var s, a := states[from], actions[from];
    assert Enabled(c, s, a) && states[from + 1] == After(c, s, a);
    if from + 1 == end {
      LastStepIsOwn(c, s, a, i);
      gaps := NOBODY;
      assert Flatten(NOBODY) == [];
      trace := LastStepFollows(c, s, a);
    } else {
      gaps, trace := SpanIsExplained(c, states, actions, i, from + 1, end);
      gaps := StepFollows(c, s, a, i, gaps, trace);
    }
  }

  /**
   * In every run, a claim that ends without its execution dying is the repository's claim, with the
   * commits of the other executions, all of them and in their order, as its gaps.
   */
  lemma RunsClaimAsTheRepositoryDoes(c: Config, states: seq<State>, actions: seq<Action>, i: nat, from: nat, end: nat)
    returns (gaps: seq<seq<DbAction>>)
    requires Run(c, states, actions) && ClaimSpan(states, i, from, end)
    requires states[from].execs[i].phase == Inserting(0)
    ensures |gaps| == 6 && Flatten(gaps) == OthersDid(c, states, actions, i, from, end)
    ensures var trace := Claim(states[from].tables, RequestOf(c, states[from].execs[i]), gaps);
      states[end].execs[i].phase == ClaimPhase(trace.result) && states[end].tables == trace.after
  {
    var trace;
    gaps, trace := SpanIsExplained(c, states, actions, i, from, end);
  }

  /** In a run, "changed during claim" means that others took the key's row away at least twice meanwhile. */
  lemma GivingUpInARun(c: Config, states: seq<State>, actions: seq<Action>, i: nat, from: nat, end: nat)
    requires Run(c, states, actions) && ClaimSpan(states, i, from, end)
    requires states[from].execs[i].phase == Inserting(0)
    requires states[end].execs[i].phase == Answered(ClaimBroken(ChangedDuringClaim))
    ensures Removals(states[from].tables, OthersDid(c, states, actions, i, from, end), states[from].execs[i].key) >= 2
  {
    var gaps := RunsClaimAsTheRepositoryDoes(c, states, actions, i, from, end);
    GivingUpNeedsTwoReleases(states[from].tables, RequestOf(c, states[from].execs[i]), gaps);
  }

  // ---- Under the lease -----------------------------------------------------------------------

  predicate StaysHere(s: State, v: State, i: nat) {
    i in s.execs ==> i in v.execs && SameRequest(s.execs[i], v.execs[i])
  }

  lemma {:induction false} StaysThrough(states: seq<State>, i: nat, from: nat, end: nat)
    requires from <= end < |states|
    requires forall j: nat :: from <= j < end ==> StaysHere(states[j], states[j + 1], i)
    ensures StaysHere(states[from], states[end], i)
    decreases end - from
  {
    if from < end {
      StaysThrough(states, i, from, end - 1);
      assert StaysHere(states[end - 1], states[end - 1 + 1], i);
    }
  }

  lemma StepStays(c: Config, states: seq<State>, actions: seq<Action>, i: nat, n: nat)
    requires Run(c, states, actions) && n < |actions|
    ensures StaysHere(states[n], states[n + 1], i)
  {
    if i in states[n].execs {
      StepKeepsRequest(c, states[n], actions[n], i);
    }
  }

  lemma RequestKept(c: Config, states: seq<State>, actions: seq<Action>, i: nat, from: nat, end: nat)
    requires Run(c, states, actions) && from <= end < |states| && i in states[from].execs
    ensures i in states[end].execs && SameRequest(states[from].execs[i], states[end].execs[i])
  {
    forall j: nat | from <= j < end
      ensures StaysHere(states[j], states[j + 1], i)
    {
      StepStays(c, states, actions, i, j);
    }
    StaysThrough(states, i, from, end);
  }

  /** In a timely run everything others do to the tables is recent in the eyes of execution `i`. */
  lemma {:induction false} TimelyInterferenceIsRecent(c: Config, states: seq<State>, actions: seq<Action>,
                                                      i: nat, from: nat, end: nat)
    requires AcceptedTiming(c.timing) && TimelyRun(c, states, actions)
    requires from <= end <= |actions| && i in states[from].execs
    ensures AllRecent(OthersDid(c, states, actions, i, from, end), RequestOf(c, states[from].execs[i]))
    decreases end - from
  {
    if from < end {
      assert Enabled(c, states[from], actions[from]);
      LeasedAlways(c, states, actions, from);
      TimelyEffectsAreRecent(c, states[from], actions[from], i);
      StepKeepsRequest(c, states[from], actions[from], i);
      TimelyInterferenceIsRecent(c, states, actions, i, from + 1, end);
    }
  }

  lemma {:induction false} RecentGaps(gaps: seq<seq<DbAction>>, r: ClaimRequest)
    requires AllRecent(Flatten(gaps), r)
    ensures forall j :: 0 <= j < |gaps| ==> AllRecent(gaps[j], r)
  {
    if gaps != [] {
      var all := Flatten(gaps);
      assert all[..|gaps[0]|] == gaps[0] && all[|gaps[0]|..] == Flatten(gaps[1..]);
      RecentGaps(gaps[1..], r);
    }
  }

  lemma SafeIsStatusOk(c: Config, s: State)
    requires TablesGood(c, s)
    ensures StatusOk(s.tables)
  {
    forall k | k in s.tables.operations
      ensures s.tables.operations[k].status.Completed? <==> s.tables.operations[k].transactionId.Some?
    {
      assert RowGood(c, s, k);
    }
  }

  /** So the repository's claim, run as it is in a timely run, is the one-step claim unless it gives up. */
  lemma TimelyRunsClaimAtomically(c: Config, states: seq<State>, actions: seq<Action>, i: nat, from: nat, end: nat)
    returns (gaps: seq<seq<DbAction>>)
    requires AcceptedTiming(c.timing) && TimelyRun(c, states, actions) && ClaimSpan(states, i, from, end)
    requires states[from].execs[i].phase == Inserting(0)
    ensures |gaps| == 6 && Flatten(gaps) == OthersDid(c, states, actions, i, from, end)
    ensures var r := RequestOf(c, states[from].execs[i]);
      var trace := Claim(states[from].tables, r, gaps);
      && states[end].execs[i].phase == ClaimPhase(trace.result) && states[end].tables == trace.after
      && (trace.result.ChangedDuringClaim? || AgreesWithAtomic(trace, r))
  {
    var r := RequestOf(c, states[from].execs[i]);
    gaps := RunsClaimAsTheRepositoryDoes(c, states, actions, i, from, end);
    TimelyInterferenceIsRecent(c, states, actions, i, from, end);
    RecentGaps(gaps, r);
    LeasedAlways(c, states, actions, from);
    SafeIsStatusOk(c, states[from]);
    TimelyClaimIsAtomic(states[from].tables, r, gaps, FIRST_ROUND);
  }

  /** From `s` to `v` execution `i` goes through the one-step claim. */
  predicate ClaimsAtOnce(r: ClaimRequest, i: nat, s: State, v: State) {
    && i in v.execs
    && var (tables, result) := AtomicClaim(s.tables, r);
       v.tables == tables && v.execs[i].phase == ClaimPhase(result)
  }

  lemma LastStatementClaimsAtOnce(c: Config, s: State, a: Action)
    requires LeaseCoversExecution(c.timing) && Leased(c, s) && Enabled(c, s, a) && ClaimStatement(a)
    requires a.i in After(c, s, a).execs && !InClaim(After(c, s, a).execs[a.i].phase)
    requires After(c, s, a).execs[a.i].phase != ClaimPhase(ChangedDuringClaim)
    ensures ClaimsAtOnce(RequestOf(c, s.execs[a.i]), a.i, s, After(c, s, a))
  {
    TimelyClaimIsAtomicClaim(c, s, a);
  }

  lemma OutOfClaim(c: Config, s: State, a: Action)
    requires Enabled(c, s, a) && ClaimStatement(a) && AtStatement(s.execs[a.i].phase)
    requires a.i in After(c, s, a).execs && !AtStatement(After(c, s, a).execs[a.i].phase)
    ensures !InClaim(After(c, s, a).execs[a.i].phase)
  {
    StatementAdvances(c, s, a, NOBODY);
  }

  /** The last step of a claim, seen by itself. */
  lemma EndClaimsAtOnce(c: Config, s: State, a: Action, i: nat, v: State)
    requires LeaseCoversExecution(c.timing) && Leased(c, s)
    requires Enabled(c, s, a) && v == After(c, s, a) && ClaimStatement(a) && a.i == i
    requires AtStatement(s.execs[i].phase) && i in v.execs && !AtStatement(v.execs[i].phase)
    requires v.execs[i].phase != ClaimPhase(ChangedDuringClaim)
    ensures ClaimsAtOnce(RequestOf(c, s.execs[i]), i, s, v)
  {
    OutOfClaim(c, s, a);
    LastStatementClaimsAtOnce(c, s, a);
  }

  lemma StepClaimsAtOnce(c: Config, states: seq<State>, actions: seq<Action>, i: nat, k: nat)
    requires LeaseCoversExecution(c.timing) && TimelyRun(c, states, actions) && k < |actions|
    requires i in states[k].execs && AtStatement(states[k].execs[i].phase)
    requires i in states[k + 1].execs && !AtStatement(states[k + 1].execs[i].phase)
    requires !states[k + 1].execs[i].phase.Gone?
    requires states[k + 1].execs[i].phase != ClaimPhase(ChangedDuringClaim)
    ensures ClaimsAtOnce(RequestOf(c, states[k].execs[i]), i, states[k], states[k + 1])
  {
    LastStepIsOwn(c, states[k], actions[k], i);
    LeasedAlways(c, states, actions, k);
    EndClaimsAtOnce(c, states[k], actions[k], i, states[k + 1]);
  }

  /**
   * Linearizability over runs. In a timely run, a claim that ends without giving up was, at a step
   * inside the call, exactly the one-step claim: same answer, same tables.
   */
  lemma TimelyClaimInARun(c: Config, states: seq<State>, actions: seq<Action>, i: nat, from: nat, end: nat)
    returns (k: nat)
    requires AcceptedTiming(c.timing) && TimelyRun(c, states, actions) && ClaimSpan(states, i, from, end)
    requires states[end].execs[i].phase != ClaimPhase(ChangedDuringClaim)
    ensures from <= k < end
    ensures ClaimsAtOnce(RequestOf(c, states[from].execs[i]), i, states[k], states[end])
  {
    k := end - 1;
    RequestKept(c, states, actions, i, from, k);
    assert RequestOf(c, states[k].execs[i]) == RequestOf(c, states[from].execs[i]);
    StepClaimsAtOnce(c, states, actions, i, k);
  }
}
