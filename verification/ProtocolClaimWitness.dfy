/** Two runs in which the claim does what the one-step claim never does. Both exist for every lease. */
module ProtocolClaimWitness {
  import opened Domain
  import opened BreakerModel
  import opened Store
  import opened Protocol
  import opened ProtocolLease
  import opened ProtocolLinearization
  import opened ProtocolInstants
  import opened ProtocolRuns
  import opened ProtocolWitness

  /** The row of an execution that inserted it with this claim time. */
  function RowAt(c: Config, x: TransactionInput, at: int): Tables {
    Tables(map[K := Operation(c.fingerprint(x), Processing, None, at, at)], map[])
  }

  /** Nothing is charged, and the only breaker that was asked is as new. */
  predicate Scene(s: State, now: int, tables: Tables, execs: map<nat, Execution>) {
    s.now == now && s.tables == tables && s.records == map[] && BreakerOf(s, 0) == INITIAL && s.execs == execs
  }

  predicate Free(m: Manner) {
    !m.prompt && !m.unrefused
  }

  lemma HolderCalls(c: Config, m: Manner, states: seq<State>, actions: seq<Action>, x: TransactionInput,
                    now: int, execs: map<nat, Execution>, i: nat)
    returns (longer: seq<State>, acted: seq<Action>)
    requires Free(m) && ManneredRun(c, m, states, actions) && Scene(Last(states), now, EMPTY, execs) && i !in execs
    ensures ManneredRun(c, m, longer, acted)
    ensures Scene(Last(longer), now, RowAt(c, x, now), execs[i := Exec(x, now, false, Calling(PERMIT, 1, now, None))])
    ensures Sent(i, 1, K, x) in Last(longer).wire
  {
    longer, acted := Extend(c, m, states, actions, Arrive(i, K, x, 0));
    longer, acted := Extend(c, m, longer, acted, InsertRow(i));
    assert Scene(Last(longer), now, RowAt(c, x, now), execs[i := Exec(x, now, false, Claimed)]);
    longer, acted := Extend(c, m, longer, acted, AskBreaker(i));
  }

  /** An execution claims the free key, and the provider rejects its call. */
  lemma HolderIsRejected(c: Config, m: Manner, states: seq<State>, actions: seq<Action>, x: TransactionInput,
                         now: int, execs: map<nat, Execution>, i: nat)
    returns (longer: seq<State>, acted: seq<Action>)
    requires Free(m) && ManneredRun(c, m, states, actions) && Scene(Last(states), now, EMPTY, execs) && i !in execs
    ensures ManneredRun(c, m, longer, acted)
    ensures Scene(Last(longer), now, RowAt(c, x, now), execs[i := Exec(x, now, false, Releasing(REJECTED))])
  {
    longer, acted := HolderCalls(c, m, states, actions, x, now, execs, i);
    longer, acted := Extend(c, m, longer, acted, ProviderHandles(Sent(i, 1, K, x), None, Failed(REJECTED)));
    longer, acted := Extend(c, m, longer, acted, Receive(i, 0.0));
  }

  /** A claimer finds a row that is not stale, and gets as far as its SELECT. */
  lemma ClaimerMeetsRow(c: Config, m: Manner, states: seq<State>, actions: seq<Action>, x: TransactionInput,
                        now: int, at: int, execs: map<nat, Execution>, j: nat, claimedAt: int, round: nat)
    returns (longer: seq<State>, acted: seq<Action>)
    requires Free(m) && ManneredRun(c, m, states, actions) && Scene(Last(states), now, RowAt(c, x, at), execs)
    requires j in execs && execs[j] == Exec(x, claimedAt, false, Inserting(round))
    requires at > claimedAt - c.timing.processingStaleTimeoutMs
    ensures ManneredRun(c, m, longer, acted)
    ensures Scene(Last(longer), now, RowAt(c, x, at), execs[j := Exec(x, claimedAt, false, Selecting(round))])
  {
    longer, acted := Extend(c, m, states, actions, InsertRow(j));
    longer, acted := Extend(c, m, longer, acted, ReclaimRow(j));
  }

  lemma HolderReleases(c: Config, m: Manner, states: seq<State>, actions: seq<Action>, x: TransactionInput,
                       now: int, at: int, execs: map<nat, Execution>, i: nat)
    returns (longer: seq<State>, acted: seq<Action>)
    requires Free(m) && ManneredRun(c, m, states, actions) && Scene(Last(states), now, RowAt(c, x, at), execs)
    requires i in execs && execs[i] == Exec(x, at, false, Releasing(REJECTED))
    ensures ManneredRun(c, m, longer, acted)
    ensures Scene(Last(longer), now, EMPTY,
                  execs[i := Exec(x, at, false, Answered(ProviderFailed(REJECTED)))])
  {
    longer, acted := Extend(c, m, states, actions, Release(i));
    assert Last(longer).tables.operations == map[];
  }

  // ---- A missed reclaim ----------------------------------------------------------------------

  /** Execution 0 read the clock, and then nothing for a whole lease. */
  function Stalled(c: Config, x: TransactionInput): Execution {
    Exec(x, 0, false, Inserting(0)).(overheadMs := c.timing.processingStaleTimeoutMs)
  }

  lemma OneStalls(c: Config, x: TransactionInput) returns (states: seq<State>, actions: seq<Action>)
    requires c.timing.processingStaleTimeoutMs >= 1
    ensures ManneredRun(c, ANYHOW, states, actions)
    ensures Scene(Last(states), c.timing.processingStaleTimeoutMs, EMPTY, map[0 := Stalled(c, x)])
  {
    states, actions := [INITIALLY], [];
    states, actions := Extend(c, ANYHOW, states, actions, Arrive(0, K, x, 0));
    states, actions := Extend(c, ANYHOW, states, actions, Tick(c.timing.processingStaleTimeoutMs));
  }

  /** A second one holds the key, for a whole lease, before it gives it back. */
  function Overdue(c: Config, x: TransactionInput): Execution {
    var lease := c.timing.processingStaleTimeoutMs;
    Exec(x, lease, false, Releasing(REJECTED)).(overheadMs := lease)
  }

  function StalledTwice(c: Config, x: TransactionInput): Execution {
    Exec(x, 0, false, Inserting(0)).(overheadMs := 2 * c.timing.processingStaleTimeoutMs)
  }

  function TwoSlow(c: Config, x: TransactionInput): map<nat, Execution> {
    map[0 := StalledTwice(c, x), 1 := Overdue(c, x)]
  }

  lemma SecondIsRejected(c: Config, x: TransactionInput) returns (states: seq<State>, actions: seq<Action>)
    requires c.timing.processingStaleTimeoutMs >= 1
    ensures ManneredRun(c, ANYHOW, states, actions)
    ensures var lease := c.timing.processingStaleTimeoutMs;
      Scene(Last(states), lease, RowAt(c, x, lease),
            map[0 := Stalled(c, x), 1 := Exec(x, lease, false, Releasing(REJECTED))])
  {
    var lease := c.timing.processingStaleTimeoutMs;
    states, actions := OneStalls(c, x);
    states, actions := HolderIsRejected(c, ANYHOW, states, actions, x, lease, map[0 := Stalled(c, x)], 1);
  }

  lemma TwoAreSlow(c: Config, x: TransactionInput) returns (states: seq<State>, actions: seq<Action>)
    requires c.timing.processingStaleTimeoutMs >= 1
    ensures ManneredRun(c, ANYHOW, states, actions)
    ensures var lease := c.timing.processingStaleTimeoutMs;
      Scene(Last(states), 2 * lease, RowAt(c, x, lease), TwoSlow(c, x))
  {
    states, actions := SecondIsRejected(c, x);
    states, actions := Extend(c, ANYHOW, states, actions, Tick(c.timing.processingStaleTimeoutMs));
  }

  /** Execution 2 is at its claim, and the one-step claim would win. */
  predicate WouldWin(c: Config, s: State) {
    && 2 in s.execs && AtStatement(s.execs[2].phase)
    && s.execs[2].claimedAt == 2 * c.timing.processingStaleTimeoutMs
    && AtomicClaim(s.tables, RequestOf(c, s.execs[2])).1.NewClaim?
  }

  ghost predicate WouldAlwaysWin(c: Config, states: seq<State>, from: nat) {
    from < |states| && forall k :: from <= k < |states| ==> WouldWin(c, states[k])
  }

  lemma ExtendWinning(c: Config, states: seq<State>, actions: seq<Action>, a: Action, from: nat)
    returns (longer: seq<State>, acted: seq<Action>)
    requires ManneredRun(c, ANYHOW, states, actions) && WouldAlwaysWin(c, states, from)
    requires Enabled(c, Last(states), a) && WouldWin(c, After(c, Last(states), a))
    ensures ManneredRun(c, ANYHOW, longer, acted) && WouldAlwaysWin(c, longer, from)
    ensures Last(longer) == After(c, Last(states), a) && longer[from] == states[from]
  {
    longer, acted := Append(c, ANYHOW, states, actions, a);
    forall k | from <= k < |longer|
      ensures WouldWin(c, longer[k])
    {
      assert k < |states| ==> longer[k] == longer[..|longer| - 1][k];
    }
    assert longer[from] == longer[..|longer| - 1][from];
  }

  /** Execution 2 arrives at a stale row, and the row goes before its UPDATE. */
  lemma StaleRowGoes(c: Config, x: TransactionInput) returns (states: seq<State>, actions: seq<Action>, from: nat)
    requires c.timing.processingStaleTimeoutMs >= 1
    ensures ManneredRun(c, ANYHOW, states, actions) && WouldAlwaysWin(c, states, from)
    ensures states[from].execs[2].phase == Inserting(0) && Last(states).execs[2].key == K
    ensures Last(states).execs[2] == Exec(x, Last(states).now, false, Reclaiming(0))
    ensures Last(states).tables == EMPTY && 0 in Last(states).execs && Last(states).execs[0] == StalledTwice(c, x)
  {
    states, actions := TwoAreSlow(c, x);
    states, actions := Extend(c, ANYHOW, states, actions, Arrive(2, K, x, 0));
    from := |states| - 1;
    states, actions := ExtendWinning(c, states, actions, InsertRow(2), from);
    states, actions := ExtendWinning(c, states, actions, Release(1), from);
    assert Last(states).tables.operations == map[];
  }

  /** Its UPDATE finds nothing, and then the stalled execution inserts its old claim time. */
  lemma OldClaimComesBack(c: Config, x: TransactionInput)
    returns (states: seq<State>, actions: seq<Action>, from: nat)
    requires c.timing.processingStaleTimeoutMs >= 1
    ensures ManneredRun(c, ANYHOW, states, actions) && WouldAlwaysWin(c, states, from)
    ensures states[from].execs[2].phase == Inserting(0)
    ensures Last(states).execs[2] == Exec(x, Last(states).now, false, Selecting(0))
    ensures Last(states).tables == RowAt(c, x, 0)
  {
    states, actions, from := StaleRowGoes(c, x);
    states, actions := ExtendWinning(c, states, actions, ReclaimRow(2), from);
    states, actions := ExtendWinning(c, states, actions, InsertRow(0), from);
  }

  lemma NoInstantIsBusy(c: Config, states: seq<State>, actions: seq<Action>, from: nat, end: nat)
    requires Run(c, states, actions) && ClaimSpan(states, 2, from, end)
    requires c.timing.processingStaleTimeoutMs >= 0 && states[end].execs[2].phase == Answered(Busy)
    requires forall k :: from <= k < end ==> WouldWin(c, states[k])
    ensures !AgreesSomewhere(c, states, actions, 2, from, end)
  {
    RunLinearizesExactly(c, states, actions, 2, from, end);
    forall k: nat | from <= k < end
      ensures !HeldFreshAt(c, states, 2, from, k)
    {
      RequestKept(c, states, actions, 2, from, k);
      assert WouldWin(c, states[k]);
    }
  }

  /**
   * The claim then answers `processing`, and the one-step claim would have answered `new_claim` at
   * every instant of the call: on the stale row, on none, and on the row with the old claim time.
   */
  lemma ReclaimIsMissed(c: Config, x: TransactionInput)
    returns (states: seq<State>, actions: seq<Action>, from: nat, end: nat)
    requires c.timing.processingStaleTimeoutMs >= 1
    ensures Run(c, states, actions) && ClaimSpan(states, 2, from, end)
    ensures states[from].execs[2].phase == Inserting(0) && states[end].execs[2].phase == Answered(Busy)
    ensures forall k :: from <= k < end ==> AtomicClaim(states[k].tables, RequestOf(c, states[k].execs[2])).1.NewClaim?
    ensures !AgreesSomewhere(c, states, actions, 2, from, end)
  {
    states, actions, from := OldClaimComesBack(c, x);
    states, actions := Append(c, ANYHOW, states, actions, SelectRow(2));
    end := |states| - 1;
    forall k | from <= k < end
      ensures 2 in states[k].execs && WouldWin(c, states[k])
    {
      assert states[k] == states[..end][k];
    }
    assert states[from] == states[..end][from];
    NoInstantIsBusy(c, states, actions, from, end);
  }

  // ---- Giving up -----------------------------------------------------------------------------

  /** One round of a claim comes to nothing: a holder before the INSERT, and none before the SELECT. */
  lemma RoundComesToNothing(c: Config, states: seq<State>, actions: seq<Action>, x: TransactionInput,
                            execs: map<nat, Execution>, j: nat, round: nat, i: nat)
    returns (longer: seq<State>, acted: seq<Action>)
    requires c.timing.processingStaleTimeoutMs >= 1 && i !in execs && i != j
    requires ManneredRun(c, TIMELY, states, actions) && Scene(Last(states), 0, EMPTY, execs)
    requires j in execs && execs[j] == Exec(x, 0, false, Inserting(round))
    ensures ManneredRun(c, TIMELY, longer, acted)
    ensures var gone := execs[j := Exec(x, 0, false, Selecting(round))];
      Scene(Last(longer), 0, EMPTY, gone[i := Exec(x, 0, false, Answered(ProviderFailed(REJECTED)))])
  {
    longer, acted := HolderIsRejected(c, TIMELY, states, actions, x, 0, execs, i);
    var held := execs[i := Exec(x, 0, false, Releasing(REJECTED))];
    longer, acted := ClaimerMeetsRow(c, TIMELY, longer, acted, x, 0, 0, held, j, 0, round);
    held := held[j := Exec(x, 0, false, Selecting(round))];
    longer, acted := HolderReleases(c, TIMELY, longer, acted, x, 0, 0, held, i);
    assert Last(longer).execs == execs[j := Exec(x, 0, false, Selecting(round))]
      [i := Exec(x, 0, false, Answered(ProviderFailed(REJECTED)))];
  }

  lemma FirstRoundComesToNothing(c: Config, x: TransactionInput) returns (states: seq<State>, actions: seq<Action>)
    requires c.timing.processingStaleTimeoutMs >= 1
    ensures ManneredRun(c, TIMELY, states, actions)
    ensures Scene(Last(states), 0, EMPTY, map[0 := Exec(x, 0, false, Inserting(1)),
                                              1 := Exec(x, 0, false, Answered(ProviderFailed(REJECTED)))])
  {
    states, actions := [INITIALLY], [];
    states, actions := Extend(c, TIMELY, states, actions, Arrive(0, K, x, 0));
    states, actions := RoundComesToNothing(c, states, actions, x, map[0 := Exec(x, 0, false, Inserting(0))], 0, 0, 1);
    states, actions := Extend(c, TIMELY, states, actions, SelectRow(0));
  }

  /** Two holders that come and go at the wrong moments make a claim give up, in a timely run. */
  lemma GivingUpIsReachable(c: Config, x: TransactionInput) returns (states: seq<State>, actions: seq<Action>)
    requires c.timing.processingStaleTimeoutMs >= 1
    ensures TimelyRun(c, states, actions)
    ensures 0 in Last(states).execs && Last(states).execs[0].phase == Answered(ClaimBroken(ChangedDuringClaim))
  {
    states, actions := FirstRoundComesToNothing(c, x);
    states, actions := RoundComesToNothing(c, states, actions, x, Last(states).execs, 0, 1, 2);
    states, actions := Extend(c, TIMELY, states, actions, SelectRow(0));
    MannersMean(c, TIMELY, states, actions);
  }
}
