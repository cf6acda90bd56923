/** Two short runs in which payload agreement is lost, one for each way of losing it. */
module ProtocolWitness {
  import opened Domain
  import opened RetryPolicy
  import opened BreakerModel
  import opened Store
  import opened Protocol
  import opened ProtocolLease
  import opened ProtocolPayload
  import opened ProtocolRuns

  const K: Key := "k"

  function Exec(input: TransactionInput, claimedAt: int, reclaimed: bool, phase: Phase): Execution {
    Execution(K, input, 0, claimedAt, reclaimed, 0, 0, phase)
  }

  function Row(c: Config, input: TransactionInput, at: int): Tables {
    Tables(map[K := Operation(c.fingerprint(input), Processing, None, 0, at)], map[])
  }

  const PERMIT := Permit(Closed, 0)

  /** The first attempt is on its way. */
  function FirstCall(c: Config, x: TransactionInput): State {
    State(0, Row(c, x, 0), map[], {Sent(0, 1, K, x)}, map[0 := INITIAL], map[],
          map[0 := Exec(x, 0, false, Calling(PERMIT, 1, 0, None))])
  }

  lemma FirstCallIsReached(c: Config, x: TransactionInput) returns (states: seq<State>, actions: seq<Action>)
    ensures ManneredRun(c, STRICT, states, actions) && Last(states) == FirstCall(c, x)
  {
    states, actions := [INITIALLY], [];
    states, actions := Extend(c, STRICT, states, actions, Arrive(0, K, x, 0));
    states, actions := Extend(c, STRICT, states, actions, InsertRow(0));
    states, actions := Extend(c, STRICT, states, actions, AskBreaker(0));
  }

  // ---- A refused reclaim ---------------------------------------------------------------------

  const SHUT := Breaker(Open, 0, 0, false, 1, [OpenedNotice(0)])
  const LOST: Phase := Answered(ProviderFailed(NetworkFailed))

  /** One attempt, one failure opens the breaker, and it stays open longer than the lease. */
  predicate OneShot(c: Config) {
    && c.timing == TimingConfig(RetryConfig(1, 1000, 0, 0, 0.0), 0, 2000, 1)
    && c.breaker == BreakerConfig(1, 10000)
  }

  lemma OneShotIsAccepted(c: Config)
    requires OneShot(c)
    ensures AcceptedTiming(c.timing) && ValidBreaker(c.breaker)
  {
    assert WindowBefore(c.timing.retry, 1) == 0;
  }

  /** The provider has approved, and the answer is lost. */
  function ChargedUnheard(c: Config, x: TransactionInput, id: Text): State {
    State(0, Row(c, x, 0), map[K := Charge(x, id)], {}, map[0 := SHUT], map[], map[0 := Exec(x, 0, false, LOST)])
  }

  /** The lease has run out, and a second execution has found the row. */
  function SecondArrived(c: Config, x: TransactionInput, id: Text): State {
    State(2000, Row(c, x, 0), map[K := Charge(x, id)], {}, map[0 := SHUT], map[],
          map[0 := Exec(x, 0, false, LOST), 1 := Exec(x, 2000, false, Reclaiming(0))])
  }

  /** It was refused, and has given its claim back. */
  function Freed(c: Config, x: TransactionInput, id: Text): State {
    State(2000, EMPTY, map[K := Charge(x, id)], {}, map[0 := SHUT], map[],
          map[0 := Exec(x, 0, false, LOST), 1 := Exec(x, 2000, true, Answered(ProviderFailed(CircuitOpen)))])
  }

  lemma ChargedUnheardIsReached(c: Config, x: TransactionInput, id: Text)
    returns (states: seq<State>, actions: seq<Action>)
    requires OneShot(c)
    ensures ManneredRun(c, PROMPT, states, actions) && Last(states) == ChargedUnheard(c, x, id)
  {
    states, actions := FirstCallIsReached(c, x);
    Loosen(c, STRICT, PROMPT, states, actions);
    states, actions := Extend(c, PROMPT, states, actions, ProviderHandles(Sent(0, 1, K, x), Some(id), Approved(id)));
    states, actions := Extend(c, PROMPT, states, actions, LoseReply(0, NetworkFailed, 0.0));
    assert INITIAL.notices + [OpenedNotice(0)] == [OpenedNotice(0)];
  }

  lemma SecondArrivedIsReached(c: Config, x: TransactionInput, id: Text)
    returns (states: seq<State>, actions: seq<Action>)
    requires OneShot(c)
    ensures ManneredRun(c, PROMPT, states, actions) && Last(states) == SecondArrived(c, x, id)
  {
    states, actions := ChargedUnheardIsReached(c, x, id);
    states, actions := Extend(c, PROMPT, states, actions, Tick(2000));
    states, actions := Extend(c, PROMPT, states, actions, Arrive(1, K, x, 0));
    states, actions := Extend(c, PROMPT, states, actions, InsertRow(1));
  }

  lemma FreedIsReached(c: Config, x: TransactionInput, id: Text)
    returns (states: seq<State>, actions: seq<Action>)
    requires OneShot(c)
    ensures ManneredRun(c, PROMPT, states, actions) && Last(states) == Freed(c, x, id)
  {
    states, actions := SecondArrivedIsReached(c, x, id);
    states, actions := Extend(c, PROMPT, states, actions, ReclaimRow(1));
    states, actions := Extend(c, PROMPT, states, actions, AskBreaker(1));
    states, actions := Extend(c, PROMPT, states, actions, Release(1));
  }

  /**
   * A charged key is released. An approval whose answer is lost, a reclaim after the lease, and a
   * refusal by the open breaker free a key that stays charged, in a timely run with a prompt provider.
   */
  lemma RefusedReclaimFreesAChargedKey(c: Config, x: TransactionInput, id: Text)
    returns (states: seq<State>, actions: seq<Action>)
    requires OneShot(c)
    ensures AcceptedTiming(c.timing) && PromptRun(c, states, actions)
    ensures K in Last(states).records && K !in Last(states).tables.operations && !Agreement(c, Last(states))
    // Nobody makes a second call: what loses the agreement is the release of a reclaimed claim.
    ensures forall n :: 0 <= n < |actions| ==> !actions[n].Wake?
  {
    OneShotIsAccepted(c);
    states, actions := FreedIsReached(c, x, id);
    MannersMean(c, PROMPT, states, actions);
    assert !KeyAgrees(c, Last(states), K);
  }

  // ---- A late delivery -----------------------------------------------------------------------

  predicate TwoShots(c: Config) {
    && c.timing == TimingConfig(RetryConfig(2, 1000, 0, 0, 0.0), 0, 3000, 1)
    && c.breaker == BreakerConfig(1, 10000)
  }

  lemma TwoShotsAreAccepted(c: Config)
    requires TwoShots(c)
    ensures AcceptedTiming(c.timing)
  {
    assert Round(Jittered(c.timing.retry, 1, 1.0)) == 0;
    assert WindowBefore(c.timing.retry, 2) == 1000;
  }

  const REJECTED: ProviderError := Rejected(Some(400))

  /** The first attempt is given up but still under way, and the second is rejected. */
  function SecondRejected(c: Config, x: TransactionInput): State {
    State(0, Row(c, x, 0), map[], {Sent(0, 1, K, x)}, map[0 := INITIAL], map[],
          map[0 := Exec(x, 0, false, Releasing(REJECTED))])
  }

  function ChargedLate(x: TransactionInput, id: Text): State {
    State(0, EMPTY, map[K := Charge(x, id)], {}, map[0 := INITIAL], map[],
          map[0 := Exec(x, 0, false, Answered(ProviderFailed(REJECTED)))])
  }

  lemma SecondCallIsReached(c: Config, x: TransactionInput) returns (states: seq<State>, actions: seq<Action>)
    requires TwoShots(c)
    ensures ManneredRun(c, UNREFUSED, states, actions)
    ensures Last(states) ==
      FirstCall(c, x).(wire := {Sent(0, 1, K, x), Sent(0, 2, K, x)},
                       execs := map[0 := Exec(x, 0, false, Calling(PERMIT, 2, 0, None))])
  {
    assert Round(Jittered(c.timing.retry, 1, 0.0)) == 0;
    states, actions := FirstCallIsReached(c, x);
    Loosen(c, STRICT, UNREFUSED, states, actions);
    states, actions := Extend(c, UNREFUSED, states, actions, LoseReply(0, NetworkFailed, 0.0));
    states, actions := Extend(c, UNREFUSED, states, actions, Wake(0));
  }

  lemma SecondRejectedIsReached(c: Config, x: TransactionInput) returns (states: seq<State>, actions: seq<Action>)
    requires TwoShots(c)
    ensures ManneredRun(c, UNREFUSED, states, actions)
    ensures Last(states) == SecondRejected(c, x)
  {
    states, actions := SecondCallIsReached(c, x);
    states, actions := Extend(c, UNREFUSED, states, actions, ProviderHandles(Sent(0, 2, K, x), None, Failed(REJECTED)));
    states, actions := Extend(c, UNREFUSED, states, actions, Receive(0, 0.0));
  }

  /**
   * A key is charged astray. A first attempt that reaches the provider after the second was rejected
   * charges a key whose row is gone; no breaker and no charged key is involved before.
   */
  lemma LateDeliveryChargesAFreedKey(c: Config, x: TransactionInput, id: Text)
    returns (states: seq<State>, actions: seq<Action>)
    requires TwoShots(c)
    ensures AcceptedTiming(c.timing) && TimelyRun(c, states, actions)
    ensures forall n :: 0 <= n < |actions| ==> !RefusesReclaimed(c, states[n], actions[n])
    // No reclaimed claim is released: what loses the agreement is the release after a second call.
    ensures forall n :: 0 <= n < |actions| ==> !ReleasesReclaimed(states[n], actions[n])
    ensures Last(states) == ChargedLate(x, id) && !Agreement(c, Last(states))
  {
    TwoShotsAreAccepted(c);
    states, actions := SecondRejectedIsReached(c, x);
    states, actions := Extend(c, UNREFUSED, states, actions, Release(0));
    states, actions := Extend(c, UNREFUSED, states, actions, ProviderHandles(Sent(0, 1, K, x), Some(id), Approved(id)));
    MannersMean(c, UNREFUSED, states, actions);
    assert !KeyAgrees(c, Last(states), K);
  }
}
