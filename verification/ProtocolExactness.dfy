/** The startup check cannot be relaxed: a lease that does not cover the window has two live holders. */
module ProtocolExactness {
  import opened Domain
  import opened RetryPolicy
  import opened Protocol
  import opened ProtocolLease
  import opened ProtocolRuns
  import opened ProtocolWitness

  /** Execution 0 alone, since time 0, with its claim on the key and this program counter. */
  predicate Alone(c: Config, s: State, x: TransactionInput, providerMs: int, phase: Phase) {
    && s.now == c.timing.executionOverheadMs + providerMs
    && s.execs == map[0 := Execution(K, x, 0, 0, false, c.timing.executionOverheadMs, providerMs, phase)]
    && s.tables == Row(c, x, 0)
  }

  predicate Started(s: State, attempt: Attempt, phase: Phase) {
    phase.Calling? && phase.attempt == attempt && phase.since == s.now && phase.reply.None?
  }

  /** All the overhead is used before the breaker is asked. */
  lemma FirstAttempt(c: Config, x: TransactionInput) returns (states: seq<State>, actions: seq<Action>, phase: Phase)
    requires ValidRetry(c.timing.retry) && c.timing.executionOverheadMs >= 0
    ensures ManneredRun(c, TIMELY, states, actions)
    ensures Alone(c, Last(states), x, 0, phase) && Started(Last(states), 1, phase)
  {
    states, actions := [INITIALLY], [];
    states, actions := Extend(c, TIMELY, states, actions, Arrive(0, K, x, 0));
    states, actions := Extend(c, TIMELY, states, actions, InsertRow(0));
    var claimed := Last(states);
    assert claimed.execs == map[0 := Execution(K, x, 0, 0, false, 0, 0, Claimed)];
    states, actions := Extend(c, TIMELY, states, actions, Tick(c.timing.executionOverheadMs));
    assert Alone(c, Last(states), x, 0, Claimed);
    states, actions := Extend(c, TIMELY, states, actions, AskBreaker(0));
    phase := Last(states).execs[0].phase;
  }

  lemma TimePasses(c: Config, s: State, x: TransactionInput, providerMs: int, phase: Phase, ms: nat)
    requires Alone(c, s, x, providerMs, phase) && (phase.Calling? || phase.Sleeping?)
    ensures Alone(c, AfterTick(s, ms), x, providerMs + ms, phase)
  {}

  /** A lost answer after the full timeout, and the longest sleep begins. */
  lemma AttemptIsLost(c: Config, x: TransactionInput, states: seq<State>, actions: seq<Action>, phase: Phase,
                      k: Attempt)
    returns (longer: seq<State>, acted: seq<Action>, asleep: Phase)
    requires ValidRetry(c.timing.retry) && k < c.timing.retry.maxAttempts
    requires ManneredRun(c, TIMELY, states, actions)
    requires Alone(c, Last(states), x, WindowBefore(c.timing.retry, k), phase) && Started(Last(states), k, phase)
    ensures ManneredRun(c, TIMELY, longer, acted)
    ensures Alone(c, Last(longer), x, WindowBefore(c.timing.retry, k) + c.timing.retry.attemptTimeoutMs, asleep)
    ensures var now := Last(longer).now;
      asleep == Sleeping(phase.permit, k, now, now + MaximumRetryDelayAfter(c.timing.retry, k))
  {
    var r := c.timing.retry;
    longer, acted := Extend(c, TIMELY, states, actions, Tick(r.attemptTimeoutMs));
    TimePasses(c, Last(states), x, WindowBefore(r, k), phase, r.attemptTimeoutMs);
    var lost := Last(longer);
    longer, acted := Extend(c, TIMELY, longer, acted, LoseReply(0, NetworkFailed, 1.0));
    asleep := Sleeping(phase.permit, k, lost.now, lost.now + MaximumRetryDelayAfter(r, k));
  }

  /** The sleep ends, and the next attempt begins. */
  lemma SleepIsOver(c: Config, x: TransactionInput, states: seq<State>, actions: seq<Action>, providerMs: int,
                    asleep: Phase)
    returns (longer: seq<State>, acted: seq<Action>, next: Phase)
    requires ManneredRun(c, TIMELY, states, actions) && Alone(c, Last(states), x, providerMs, asleep)
    requires asleep.Sleeping? && asleep.until >= Last(states).now
    ensures ManneredRun(c, TIMELY, longer, acted)
    ensures Alone(c, Last(longer), x, providerMs + asleep.until - Last(states).now, next)
    ensures Started(Last(longer), asleep.attempt + 1, next)
  {
    var delay := asleep.until - Last(states).now;
    longer, acted := Extend(c, TIMELY, states, actions, Tick(delay));
    TimePasses(c, Last(states), x, providerMs, asleep, delay);
    var rested := Last(longer);
    longer, acted := Extend(c, TIMELY, longer, acted, Wake(0));
    next := Calling(asleep.permit, asleep.attempt + 1, rested.now, None);
  }

  lemma NextAttempt(c: Config, x: TransactionInput, states: seq<State>, actions: seq<Action>, phase: Phase, k: Attempt)
    returns (longer: seq<State>, acted: seq<Action>, next: Phase)
    requires ValidRetry(c.timing.retry) && k < c.timing.retry.maxAttempts
    requires ManneredRun(c, TIMELY, states, actions)
    requires Alone(c, Last(states), x, WindowBefore(c.timing.retry, k), phase) && Started(Last(states), k, phase)
    ensures ManneredRun(c, TIMELY, longer, acted)
    ensures Alone(c, Last(longer), x, WindowBefore(c.timing.retry, k + 1), next) && Started(Last(longer), k + 1, next)
  {
    var r := c.timing.retry;
    DelayMonotone(r, k, 1.0, k, 1.0);
    var asleep;
    longer, acted, asleep := AttemptIsLost(c, x, states, actions, phase, k);
    longer, acted, next := SleepIsOver(c, x, longer, acted, WindowBefore(r, k) + r.attemptTimeoutMs, asleep);
  }

  lemma {:induction false} AttemptAt(c: Config, x: TransactionInput, k: Attempt)
    returns (states: seq<State>, actions: seq<Action>, phase: Phase)
    requires ValidRetry(c.timing.retry) && c.timing.executionOverheadMs >= 0 && k <= c.timing.retry.maxAttempts
    ensures ManneredRun(c, TIMELY, states, actions)
    ensures Alone(c, Last(states), x, WindowBefore(c.timing.retry, k), phase) && Started(Last(states), k, phase)
    decreases k
  {
    if k == 1 {
      states, actions, phase := FirstAttempt(c, x);
    } else {
      states, actions, phase := AttemptAt(c, x, k - 1);
      states, actions, phase := NextAttempt(c, x, states, actions, phase, k - 1);
    }
  }

  /** At the very end of the window the first holder still waits. */
  lemma WindowIsUsedUp(c: Config, x: TransactionInput)
    returns (states: seq<State>, actions: seq<Action>, phase: Phase)
    requires ValidRetry(c.timing.retry) && c.timing.executionOverheadMs >= 0
    ensures ManneredRun(c, TIMELY, states, actions)
    ensures Alone(c, Last(states), x, RetryWindow(c.timing.retry), phase) && phase.Calling?
  {
    var r := c.timing.retry;
    states, actions, phase := AttemptAt(c, x, r.maxAttempts);
    var before := Last(states);
    states, actions := Extend(c, TIMELY, states, actions, Tick(r.attemptTimeoutMs));
    TimePasses(c, before, x, WindowBefore(r, r.maxAttempts), phase, r.attemptTimeoutMs);
  }

  lemma SecondTakesOver(c: Config, x: TransactionInput, states: seq<State>, actions: seq<Action>, phase: Phase)
    returns (longer: seq<State>, acted: seq<Action>)
    requires ManneredRun(c, TIMELY, states, actions) && c.timing.retry.maxAttempts >= 1
    requires Alone(c, Last(states), x, RetryWindow(c.timing.retry), phase) && phase.Calling?
    requires c.timing.processingStaleTimeoutMs <= ExecutionWindow(c.timing)
    ensures ManneredRun(c, TIMELY, longer, acted) && !Exclusive(Last(longer))
  {
    longer, acted := Extend(c, TIMELY, states, actions, Arrive(1, K, x, 0));
    longer, acted := Extend(c, TIMELY, longer, acted, InsertRow(1));
    longer, acted := Extend(c, TIMELY, longer, acted, ReclaimRow(1));
    var s := Last(longer);
    assert Holding(s.execs[0]) && Holding(s.execs[1]) && s.execs[0].key == s.execs[1].key;
  }

  /** Then a second holder takes the claim. */
  lemma ShortLeaseHasTwoHolders(c: Config, x: TransactionInput) returns (states: seq<State>, actions: seq<Action>)
    requires ValidRetry(c.timing.retry) && c.timing.executionOverheadMs >= 0
    requires c.timing.processingStaleTimeoutMs <= ExecutionWindow(c.timing)
    ensures TimelyRun(c, states, actions) && !Exclusive(Last(states))
  {
    var phase;
    states, actions, phase := WindowIsUsedUp(c, x);
    states, actions := SecondTakesOver(c, x, states, actions, phase);
    MannersMean(c, TIMELY, states, actions);
  }

  /**
   * The lease excludes a second live holder in every timely run if and only if it outlasts the
   * longest execution: attempts, longest delays and overhead.
   */
  lemma LeaseConditionIsExact(c: Config)
    requires ValidRetry(c.timing.retry) && c.timing.executionOverheadMs >= 0
    ensures ExecutionWindow(c.timing) < c.timing.processingStaleTimeoutMs <==>
      forall states, actions, n :: TimelyRun(c, states, actions) && 0 <= n < |states| ==> Exclusive(states[n])
  {
    if ExecutionWindow(c.timing) < c.timing.processingStaleTimeoutMs {
      forall states, actions, n | TimelyRun(c, states, actions) && 0 <= n < |states|
        ensures Exclusive(states[n])
      {
        LeasedAlways(c, states, actions, n);
      }
    } else {
      var states, actions := ShortLeaseHasTwoHolders(c, TransactionInput(1, [], []));
      assert TimelyRun(c, states, actions) && 0 <= |states| - 1 < |states| && !Exclusive(states[|states| - 1]);
    }
  }
}
