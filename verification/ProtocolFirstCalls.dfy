/**
 * Payload agreement under a condition an execution can check by itself: it releases no claim that it
 * reclaimed, and none after a second call.
 */
module ProtocolFirstCalls {
  import opened Domain
  import opened RetryPolicy
  import opened Protocol
  import opened ProtocolLease
  import opened ProtocolPayload

  /** The executions that have made a second call within the first n actions. */
  function Woken(actions: seq<Action>, n: nat): set<nat>
    requires n <= |actions|
  {
    if n == 0 then {}
    else Woken(actions, n - 1) + if actions[n - 1].Wake? then {actions[n - 1].i} else {}
  }

  lemma {:induction false} WokenExactly(actions: seq<Action>, n: nat, i: nat)
    requires n <= |actions|
    ensures i in Woken(actions, n) <==> exists k :: 0 <= k < n && actions[k] == Wake(i)
  {
    if n > 0 {
      WokenExactly(actions, n - 1, i);
    }
  }

  /** The key is neither charged nor about to be. */
  predicate Clean(s: State, key: Key) {
    key !in s.records && !UnderWay(s, key)
  }

  /** The key is not charged, and the only request for it under way is the first of execution `i`. */
  ghost predicate OnlyOwn(s: State, i: nat, e: Execution) {
    e.key !in s.records && forall m :: m in s.wire && m.key == e.key ==> m == Sent(i, 1, e.key, e.input)
  }

  /** What an execution on its own first call knows about its key. */
  ghost predicate Knows(s: State, i: nat, e: Execution) {
    match e.phase
    case Claimed => Clean(s, e.key)
    case Releasing(_) => Clean(s, e.key)
    case Calling(_, attempt, _, reply) =>
      && attempt == 1
      && reply != Some(Failed(CircuitOpen))
      && (reply.None? ==> OnlyOwn(s, i, e))
      && (reply.Some? && Rejection(reply.value) ==> Clean(s, e.key))
    case _ => true
  }

  ghost predicate FirstCallOk(s: State, woken: set<nat>, i: nat)
    requires i in s.execs
  {
    s.execs[i].reclaimed || i in woken || Knows(s, i, s.execs[i])
  }

  ghost predicate AbsentIsClean(s: State) {
    forall key :: key !in s.tables.operations ==> Clean(s, key)
  }

  ghost predicate FirstCallsOk(s: State, woken: set<nat>) {
    AbsentIsClean(s) && forall i :: i in s.execs ==> FirstCallOk(s, woken, i)
  }

  /** A release that an execution on its own first call may make. */
  predicate ReleasesEarly(s: State, woken: set<nat>, a: Action) {
    a.Release? ==> a.i in s.execs && !s.execs[a.i].reclaimed && a.i !in woken
  }

  function WokenNow(woken: set<nat>, a: Action): set<nat> {
    woken + if a.Wake? then {a.i} else {}
  }

  // ---- Absent rows ---------------------------------------------------------------------------

  /** Nothing but the provider charges, and nothing but a call puts a request under way. */
  lemma QuietStepKeepsClean(c: Config, s: State, a: Action, key: Key)
    requires Enabled(c, s, a) && !a.ProviderHandles? && Clean(s, key)
    requires a.AskBreaker? || a.Wake? ==> s.execs[a.i].key != key
    ensures Clean(After(c, s, a), key)
  {
    var v := After(c, s, a);
    if !a.Tick? {
      StepTouchesOne(c, s, a);
    }
    forall m | m in v.wire
      ensures m.key != key
    {
      if m !in s.wire {
        CallKeepsTables(c, s, a, m);
      }
    }
  }

  lemma ProviderKeepsClean(c: Config, s: State, a: Action, key: Key)
    requires Enabled(c, s, a) && a.ProviderHandles? && Clean(s, key)
    ensures Clean(After(c, s, a), key)
  {
    assert a.sent in s.wire && a.sent.key != key;
  }

  lemma CallsWriteNothing(c: Config, s: State, a: Action)
    requires Enabled(c, s, a) && (a.AskBreaker? || a.Wake?)
    ensures After(c, s, a).tables == s.tables && Holding(s.execs[a.i])
  {}

  lemma RowGoesOnlyByRelease(c: Config, s: State, a: Action, key: Key)
    requires Enabled(c, s, a) && key in s.tables.operations && key !in After(c, s, a).tables.operations
    ensures a.Release? && s.execs[a.i].key == key
  {}

  lemma AbsentStaysClean(c: Config, s: State, woken: set<nat>, a: Action, key: Key)
    requires LeaseCoversExecution(c.timing) && Leased(c, s) && FirstCallsOk(s, woken)
    requires Enabled(c, s, a) && ReleasesEarly(s, woken, a)
    requires key !in After(c, s, a).tables.operations
    ensures Clean(After(c, s, a), key)
  {
    if a.ProviderHandles? {
      ProviderKeepsClean(c, s, a, key);
    } else {
      if key in s.tables.operations {
        RowGoesOnlyByRelease(c, s, a, key);
        assert FirstCallOk(s, woken, a.i);
      }
      if a.AskBreaker? || a.Wake? {
        assert LeaseGood(c, s, a.i);
        CallsWriteNothing(c, s, a);
      }
      QuietStepKeepsClean(c, s, a, key);
    }
  }

  // ---- The mover -----------------------------------------------------------------------------

  lemma InsertKnows(c: Config, s: State, i: nat)
    requires Enabled(c, s, InsertRow(i)) && AbsentIsClean(s)
    ensures var v := AfterInsert(c, s, i); Knows(v, i, v.execs[i])
  {}

  lemma AskKnows(c: Config, s: State, i: nat)
    requires Enabled(c, s, AskBreaker(i)) && Clean(s, s.execs[i].key)
    ensures var v := AfterAsk(c, s, i); Knows(v, i, v.execs[i])
  {}

  lemma AttemptKnows(c: Config, s: State, i: nat, reply: Reply, random: real)
    requires i in s.execs && s.execs[i].phase.Calling? && reply != Failed(CircuitOpen)
    requires Rejection(reply) ==> Clean(s, s.execs[i].key)
    ensures var v := AttemptOver(c, s, i, reply, random); Knows(v, i, v.execs[i])
  {}

  lemma EndKnows(c: Config, s: State, a: Action)
    requires Enabled(c, s, a) && (a.Release? || a.IssueId? || a.Commit? || a.Respond? || a.Abandon? || a.Arrive?)
    ensures a.i in After(c, s, a).execs && Knows(After(c, s, a), a.i, After(c, s, a).execs[a.i])
  {}

  lemma SelectKnows(c: Config, s: State, i: nat)
    requires Enabled(c, s, SelectRow(i))
    ensures var v := AfterSelect(c, s, i); Knows(v, i, v.execs[i])
  {}

  lemma ReclaimKnows(c: Config, s: State, i: nat)
    requires Enabled(c, s, ReclaimRow(i))
    ensures var v := AfterReclaim(c, s, i); v.execs[i].reclaimed || Knows(v, i, v.execs[i])
  {}

  /** Neither the claim nor the retries change how a claim was won, once it is won. */
  lemma ReclaimedStays(c: Config, s: State, a: Action)
    requires Enabled(c, s, a) && !a.Tick? && !a.ProviderHandles? && !a.Arrive? && !a.ReclaimRow?
    ensures a.i in After(c, s, a).execs && After(c, s, a).execs[a.i].reclaimed == s.execs[a.i].reclaimed
  {}

  lemma MoverKnows(c: Config, s: State, a: Action)
    requires Enabled(c, s, a) && !a.Tick? && !a.ProviderHandles? && !a.Wake? && AbsentIsClean(s)
    requires !a.Arrive? ==> Knows(s, a.i, s.execs[a.i])
    ensures var v := After(c, s, a);
      a.i in v.execs && (v.execs[a.i].reclaimed || Knows(v, a.i, v.execs[a.i]))
  {
    match a
    case InsertRow(i) => InsertKnows(c, s, i);
    case ReclaimRow(i) => ReclaimKnows(c, s, i);
    case SelectRow(i) => SelectKnows(c, s, i);
    case AskBreaker(i) => AskKnows(c, s, i);
    case Receive(i, random) => AttemptKnows(c, s, i, s.execs[i].phase.reply.value, random);
    case LoseReply(i, error, random) => AttemptKnows(c, s, i, Failed(error), random);
    case _ => EndKnows(c, s, a);
  }

  lemma MoverKept(c: Config, s: State, woken: set<nat>, a: Action)
    requires Enabled(c, s, a) && !a.Tick? && !a.ProviderHandles? && AbsentIsClean(s)
    requires !a.Arrive? ==> FirstCallOk(s, woken, a.i)
    ensures a.i in After(c, s, a).execs && FirstCallOk(After(c, s, a), WokenNow(woken, a), a.i)
  {
    if a.Wake? {
      StepTouchesOne(c, s, a);
    } else if a.ReclaimRow? {
      ReclaimKnows(c, s, a.i);
    } else if a.Arrive? {
      MoverKnows(c, s, a);
    } else if s.execs[a.i].reclaimed || a.i in woken {
      ReclaimedStays(c, s, a);
    } else {
      MoverKnows(c, s, a);
    }
  }

  // ---- The others ----------------------------------------------------------------------------

  /** A holder's key is called for by nobody else. */
  lemma OtherStepKeepsKnowledge(c: Config, s: State, a: Action, x: nat)
    requires LeaseOk(c, s) && Enabled(c, s, a) && !a.Tick? && !a.ProviderHandles?
    requires x in s.execs && x != a.i && Knows(s, x, s.execs[x])
    ensures x in After(c, s, a).execs && Knows(After(c, s, a), x, After(c, s, a).execs[x])
  {
    StepTouchesOne(c, s, a);
    var v, key := After(c, s, a), s.execs[x].key;
    if Holding(s.execs[x]) {
      forall m | m in v.wire && m.key == key
        ensures m in s.wire
      {
        if m !in s.wire {
          CallKeepsTables(c, s, a, m);
        }
      }
    }
  }

  lemma TickKeepsKnowledge(s: State, ms: nat, x: nat)
    requires x in s.execs && Knows(s, x, s.execs[x])
    ensures Knows(AfterTick(s, ms), x, AfterTick(s, ms).execs[x])
  {}

  /** A delivery for the key of a first call is that call. */
  lemma ProviderKeepsKnowledge(c: Config, s: State, a: Action, x: nat)
    requires Enabled(c, s, a) && a.ProviderHandles? && x in s.execs && Knows(s, x, s.execs[x])
    ensures Knows(After(c, s, a), x, After(c, s, a).execs[x])
  {
    var e, v := s.execs[x], After(c, s, a);
    if e.key != a.sent.key {
      assert Clean(s, e.key) ==> Clean(v, e.key);
    } else if e.phase.Calling? && e.phase.reply.None? {
      assert a.sent.execution == x && Awaited(s, a.sent);
    } else {
      assert !Clean(s, e.key);
    }
  }

  lemma FirstCallKept(c: Config, s: State, woken: set<nat>, a: Action, x: nat)
    requires LeaseOk(c, s) && FirstCallsOk(s, woken) && Enabled(c, s, a) && x in After(c, s, a).execs
    ensures FirstCallOk(After(c, s, a), WokenNow(woken, a), x)
  {
    assert x in s.execs ==> FirstCallOk(s, woken, x);
    if a.Tick? {
      if Knows(s, x, s.execs[x]) {
        TickKeepsKnowledge(s, a.ms, x);
      }
    } else if a.ProviderHandles? {
      if Knows(s, x, s.execs[x]) {
        ProviderKeepsKnowledge(c, s, a, x);
      }
    } else if x == a.i {
      MoverKept(c, s, woken, a);
    } else {
      StepTouchesOne(c, s, a);
      if Knows(s, x, s.execs[x]) {
        OtherStepKeepsKnowledge(c, s, a, x);
      }
    }
  }

  // ---- Runs ----------------------------------------------------------------------------------

  lemma StepKeepsFirstCalls(c: Config, s: State, woken: set<nat>, a: Action)
    requires LeaseCoversExecution(c.timing) && Leased(c, s) && FirstCallsOk(s, woken)
    requires Enabled(c, s, a) && ReleasesEarly(s, woken, a)
    ensures FirstCallsOk(After(c, s, a), WokenNow(woken, a))
  {
    var v := After(c, s, a);
    forall key | key !in v.tables.operations
      ensures Clean(v, key)
    {
      AbsentStaysClean(c, s, woken, a, key);
    }
    forall x | x in v.execs
      ensures FirstCallOk(v, WokenNow(woken, a), x)
    {
      FirstCallKept(c, s, woken, a, x);
    }
  }

  /** Up to step n nobody released a claim it reclaimed, or released after a second call. */
  ghost predicate EarlyReleases(states: seq<State>, actions: seq<Action>, n: nat)
    requires n <= |actions| && n <= |states|
  {
    forall m :: 0 <= m < n ==> ReleasesEarly(states[m], Woken(actions, m), actions[m])
  }

  lemma {:induction false} FirstCallsAlways(c: Config, states: seq<State>, actions: seq<Action>, n: nat)
    requires LeaseCoversExecution(c.timing) && TimelyRun(c, states, actions) && n < |states|
    requires EarlyReleases(states, actions, n)
    ensures FirstCallsOk(states[n], Woken(actions, n))
  {
    if n > 0 {
      FirstCallsAlways(c, states, actions, n - 1);
      LeasedAlways(c, states, actions, n - 1);
      StepKeepsFirstCalls(c, states[n - 1], Woken(actions, n - 1), actions[n - 1]);
    }
  }

  lemma EarlyReleaseIsSafe(s: State, woken: set<nat>, a: Action)
    requires FirstCallsOk(s, woken) && ReleasesEarly(s, woken, a) && (a.Release? ==> s.execs[a.i].phase.Releasing?)
    ensures !UnsafeRelease(s, a)
  {
    if a.Release? {
      assert FirstCallOk(s, woken, a.i);
    }
  }

  lemma EarlyReleasesAreSafe(c: Config, states: seq<State>, actions: seq<Action>, m: nat)
    requires LeaseCoversExecution(c.timing) && TimelyRun(c, states, actions) && m < |actions|
    requires EarlyReleases(states, actions, m + 1)
    ensures !UnsafeRelease(states[m], actions[m])
  {
    FirstCallsAlways(c, states, actions, m);
    assert Enabled(c, states[m], actions[m]);
    EarlyReleaseIsSafe(states[m], Woken(actions, m), actions[m]);
  }

  /** Action m releases a claim that was reclaimed, or one for which a second call was made before. */
  predicate ReleasesLate(states: seq<State>, actions: seq<Action>, m: nat)
    requires m < |actions| && m < |states|
  {
    && actions[m].Release? && actions[m].i in states[m].execs
    && (states[m].execs[actions[m].i].reclaimed || exists k :: 0 <= k < m && actions[k] == Wake(actions[m].i))
  }

  lemma NotLateIsEarly(c: Config, states: seq<State>, actions: seq<Action>, m: nat)
    requires Run(c, states, actions) && m < |actions| && !ReleasesLate(states, actions, m)
    ensures ReleasesEarly(states[m], Woken(actions, m), actions[m])
  {
    assert Enabled(c, states[m], actions[m]);
    if actions[m].Release? {
      WokenExactly(actions, m, actions[m].i);
    }
  }

  /**
   * Payload agreement under a condition on what the releasing execution has itself done. In a timely
   * run in which no claim is released that was reclaimed, and none after a second call for it, no
   * release is unsafe and every charged key has a row with the charged payload's fingerprint.
   */
  lemma OneCallKeepsAgreement(c: Config, states: seq<State>, actions: seq<Action>, n: nat)
    requires AcceptedTiming(c.timing) && TimelyRun(c, states, actions) && n < |states|
    requires forall m :: 0 <= m < n ==> !ReleasesLate(states, actions, m)
    ensures forall m :: 0 <= m < n ==> !UnsafeRelease(states[m], actions[m])
    ensures Agreement(c, states[n]) && Backed(c, states[n])
  {
    forall m | 0 <= m < n
      ensures ReleasesEarly(states[m], Woken(actions, m), actions[m])
    {
      NotLateIsEarly(c, states, actions, m);
    }
    forall m | 0 <= m < n
      ensures !UnsafeRelease(states[m], actions[m])
    {
      EarlyReleasesAreSafe(c, states, actions, m);
    }
    SafeReleasesKeepAgreement(c, states, actions, n);
  }
}
