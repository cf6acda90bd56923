/**
 * The provider call inside a run. From the breaker's permit to the outcome, an execution makes the
 * calls that the retry loop makes on the same replies, and ends as the loop does.
 */
module ProtocolRetries {
  import opened Domain
  import opened RetryPolicy
  import opened RetryLoop
  import opened BreakerModel
  import opened Protocol

  predicate AtProvider(p: Phase) {
    p.Calling? || p.Sleeping?
  }

  /** The first attempt whose reply is still to come. */
  function OpenAttempt(p: Phase): int
    requires AtProvider(p)
  {
    if p.Calling? then p.attempt else p.attempt + 1
  }

  predicate InRange(c: RetryConfig, p: Phase) {
    AtProvider(p) && OpenAttempt(p) <= c.maxAttempts
  }

  /** The loop, from its n-th attempt on, reads these replies: the last ends it, the others do not. */
  ghost predicate Reads(c: RetryConfig, n: int, seen: seq<Reply>) {
    && seen != [] && n + |seen| - 1 <= c.maxAttempts
    && (forall j :: 0 <= j < |seen| - 1 ==> !Stops(c, seen[j], n + j))
    && Stops(c, seen[|seen| - 1], n + |seen| - 1)
  }

  /** That is the retry loop's own count. */
  lemma {:induction false} ReadsAsTheLoop(c: RetryConfig, n: int, seen: seq<Reply>, replies: seq<Reply>)
    requires 1 <= n && c.maxAttempts <= |replies| && Reads(c, n, seen)
    requires seen == replies[n - 1..n - 1 + |seen|]
    ensures LastAttemptFrom(c, replies, n) == n + |seen| - 1
    decreases |seen|
  {
    assert replies[n - 1] == seen[0];
    if |seen| > 1 {
      assert !Stops(c, seen[0], n);
      assert forall j :: 0 <= j < |seen| - 2 ==> seen[1..][j] == seen[j + 1];
      ReadsAsTheLoop(c, n + 1, seen[1..], replies);
    }
  }

  lemma ReadsOneMore(c: RetryConfig, n: int, reply: Reply, seen: seq<Reply>)
    requires Reads(c, n + 1, seen) && !Stops(c, reply, n)
    ensures Reads(c, n, [reply] + seen)
  {
    var all := [reply] + seen;
    forall j | 0 <= j < |all| - 1
      ensures !Stops(c, all[j], n + j)
    {
      if j > 0 {
        assert all[j] == seen[j - 1];
      }
    }
    assert all[|all| - 1] == seen[|seen| - 1];
  }

  // ---- Steps ---------------------------------------------------------------------------------

  /** The same attempt, though a reply to it may have come in. */
  predicate SameAttempt(p: Phase, q: Phase) {
    p == q || (p.Calling? && q.Calling? && p.attempt == q.attempt && p.permit == q.permit)
  }

  lemma OthersLeaveAttempt(c: Config, s: State, a: Action, i: nat)
    requires Enabled(c, s, a) && !Moves(a, i) && i in s.execs && AtProvider(s.execs[i].phase)
    ensures var v := After(c, s, a);
      i in v.execs && SameAttempt(s.execs[i].phase, v.execs[i].phase)
  {
    if !a.Tick? && !a.ProviderHandles? {
      StepTouchesOne(c, s, a);
    }
  }

  /** The reply an attempt ends with, as its execution sees it. */
  ghost function ReplySeen(c: Config, s: State, a: Action): Reply
    requires Enabled(c, s, a) && (a.Receive? || a.LoseReply?)
  {
    if a.LoseReply? then Failed(a.error) else s.execs[a.i].phase.reply.value
  }

  lemma OwnStepAtProvider(c: Config, s: State, a: Action, i: nat)
    requires Enabled(c, s, a) && Moves(a, i) && i in s.execs && AtProvider(s.execs[i].phase)
    ensures i in After(c, s, a).execs
    ensures !After(c, s, a).execs[i].phase.Gone? ==> a.Receive? || a.LoseReply? || a.Wake?
  {}

  lemma OwnReply(c: Config, s: State, a: Action)
    requires Enabled(c, s, a) && (a.Receive? || a.LoseReply?)
    ensures After(c, s, a) == AttemptOver(c, s, a.i, ReplySeen(c, s, a), a.random)
  {}

  lemma OwnWake(c: Config, s: State, a: Action)
    requires Enabled(c, s, a) && a.Wake?
    ensures var e, v := s.execs[a.i], After(c, s, a);
      && v.execs[a.i].phase == Calling(e.phase.permit, e.phase.attempt + 1, s.now, None)
      && v.wire == s.wire + {Sent(a.i, e.phase.attempt + 1, e.key, e.input)}
      && v.breakers == s.breakers
  {}

  /** Until it is over, the call tells the breaker nothing. */
  lemma QuietWhileAtProvider(c: Config, s: State, a: Action, i: nat)
    requires Enabled(c, s, a) && Moves(a, i) && i in s.execs && AtProvider(s.execs[i].phase)
    requires AtProvider(After(c, s, a).execs[i].phase)
    ensures After(c, s, a).breakers == s.breakers
  {
    OwnStepAtProvider(c, s, a, i);
    if !a.Wake? {
      OwnReply(c, s, a);
    }
  }

  // ---- The whole call ------------------------------------------------------------------------

  /** The reply this step ends an attempt of execution `i` with, if it does. */
  ghost function SeenNow(c: Config, s: State, a: Action, i: nat): seq<Reply>
    requires Enabled(c, s, a)
  {
    if Moves(a, i) && (a.Receive? || a.LoseReply?) then [ReplySeen(c, s, a)] else []
  }

  /** Whether this step is a further call of execution `i`. */
  function WakesNow(a: Action, i: nat): nat {
    if Moves(a, i) && a.Wake? then 1 else 0
  }

  ghost function Seen(c: Config, states: seq<State>, actions: seq<Action>, i: nat, from: nat, end: nat): seq<Reply>
    requires Run(c, states, actions) && from <= end <= |actions|
    decreases end - from
  {
    if from == end then []
    else SeenNow(c, states[from], actions[from], i) + Seen(c, states, actions, i, from + 1, end)
  }

  function Wakes(actions: seq<Action>, i: nat, from: nat, end: nat): nat
    requires from <= end <= |actions|
    decreases end - from
  {
    if from == end then 0 else WakesNow(actions[from], i) + Wakes(actions, i, from + 1, end)
  }

  /** Execution `i` is at the provider from step `from` on, and has its outcome at `end`. */
  ghost predicate ProviderSpan(states: seq<State>, i: nat, from: nat, end: nat) {
    && from < end < |states|
    && (forall j :: from <= j < end ==> i in states[j].execs && AtProvider(states[j].execs[i].phase))
    && i in states[end].execs && !AtProvider(states[end].execs[i].phase) && !states[end].execs[i].phase.Gone?
  }

  /** The replies read from program counter `p` on make the loop end as it did, in `calls` more calls. */
  ghost predicate Accounts(c: RetryConfig, p: Phase, seen: seq<Reply>, calls: nat)
    requires AtProvider(p)
  {
    Reads(c, OpenAttempt(p), seen) && p.attempt + calls == OpenAttempt(p) + |seen| - 1
  }

  /** The breaker as the last step leaves it: told once, on this permit, of the last reply. */
  ghost predicate Told(c: Config, s: State, v: State, i: nat, permit: Permit, reply: Reply)
    requires i in s.execs
  {
    var r := s.execs[i].replica;
    v.breakers == s.breakers[r := Record(c.breaker, BreakerOf(s, r), permit, OutcomeOf(reply), s.now)]
  }

  /** The last step: some attempt's reply ends the loop. */
  lemma LastReply(c: Config, s: State, a: Action, i: nat)
    requires Enabled(c, s, a) && i in s.execs && InRange(c.timing.retry, s.execs[i].phase)
    requires var v := After(c, s, a);
      i in v.execs && !AtProvider(v.execs[i].phase) && !v.execs[i].phase.Gone?
    ensures Moves(a, i) && (a.Receive? || a.LoseReply?)
    ensures var v, reply, p := After(c, s, a), ReplySeen(c, s, a), s.execs[i].phase;
      && v.execs[i].phase == ReplyPhase(reply)
      && Accounts(c.timing.retry, p, [reply], 0)
      && Told(c, s, v, i, p.permit, reply)
  {
    if !Moves(a, i) {
      OthersLeaveAttempt(c, s, a, i);
    }
    OwnStepAtProvider(c, s, a, i);
    OwnReply(c, s, a);
  }

  /** A reply that is tried again. */
  lemma ReplyAccounts(c: Config, s: State, a: Action, seen: seq<Reply>, calls: nat)
    requires Enabled(c, s, a) && (a.Receive? || a.LoseReply?) && InRange(c.timing.retry, s.execs[a.i].phase)
    requires AtProvider(After(c, s, a).execs[a.i].phase)
    ensures var p, q := s.execs[a.i].phase, After(c, s, a).execs[a.i].phase;
      && InRange(c.timing.retry, q) && q.permit == p.permit
      && (Accounts(c.timing.retry, q, seen, calls) ==>
            Accounts(c.timing.retry, p, [ReplySeen(c, s, a)] + seen, calls))
  {
    var p := s.execs[a.i].phase;
    OwnReply(c, s, a);
    if Accounts(c.timing.retry, After(c, s, a).execs[a.i].phase, seen, calls) {
      ReadsOneMore(c.timing.retry, p.attempt, ReplySeen(c, s, a), seen);
    }
  }

  /** A step on the way: a reply that is tried again, a new call, or somebody else's. */
  lemma StepAccounts(c: Config, s: State, a: Action, i: nat, seen: seq<Reply>, calls: nat)
    requires Enabled(c, s, a) && i in s.execs && InRange(c.timing.retry, s.execs[i].phase)
    requires i in After(c, s, a).execs && AtProvider(After(c, s, a).execs[i].phase)
    ensures var q := After(c, s, a).execs[i].phase;
      InRange(c.timing.retry, q) && q.permit == s.execs[i].phase.permit
    ensures Accounts(c.timing.retry, After(c, s, a).execs[i].phase, seen, calls) ==>
      Accounts(c.timing.retry, s.execs[i].phase, SeenNow(c, s, a, i) + seen, WakesNow(a, i) + calls)
  {
    assert [] + seen == seen;
    if !Moves(a, i) {
      OthersLeaveAttempt(c, s, a, i);
    } else {
      OwnStepAtProvider(c, s, a, i);
      if a.Wake? {
        OwnWake(c, s, a);
      } else {
        ReplyAccounts(c, s, a, seen, calls);
      }
    }
  }

  lemma {:induction false} SpanAccounts(c: Config, states: seq<State>, actions: seq<Action>, i: nat, from: nat,
                                        end: nat)
    requires Run(c, states, actions) && ProviderSpan(states, i, from, end)
    requires InRange(c.timing.retry, states[from].execs[i].phase)
    ensures var p, seen := states[from].execs[i].phase, Seen(c, states, actions, i, from, end);
      && Accounts(c.timing.retry, p, seen, Wakes(actions, i, from, end))
      && states[end].execs[i].phase == ReplyPhase(seen[|seen| - 1])
      && Told(c, states[end - 1], states[end], i, p.permit, seen[|seen| - 1])
    decreases end - from
  {
    var s, a := states[from], actions[from];
    assert Enabled(c, s, a) && states[from + 1] == After(c, s, a);
    if from + 1 == end {
      LastReply(c, s, a, i);
      assert Seen(c, states, actions, i, from, end) == [ReplySeen(c, s, a)];
    } else {
      var later, calls := Seen(c, states, actions, i, from + 1, end), Wakes(actions, i, from + 1, end);
      StepAccounts(c, s, a, i, later, calls);
      SpanAccounts(c, states, actions, i, from + 1, end);
      var seen := SeenNow(c, s, a, i) + later;
      assert seen[|seen| - 1] == later[|later| - 1];
    }
  }

  /**
   * In every run, an execution that was let through by the breaker and does not die makes the calls
   * of the retry loop on the replies it sees, ends with the last of them, and tells the breaker once.
   */
  lemma RunsProviderAsTheLoopDoes(c: Config, states: seq<State>, actions: seq<Action>, i: nat, from: nat, end: nat,
                                  replies: seq<Reply>)
    requires Run(c, states, actions) && ProviderSpan(states, i, from, end)
    requires 1 <= c.timing.retry.maxAttempts <= |replies|
    requires states[from].execs[i].phase.Calling? && states[from].execs[i].phase.attempt == 1
    requires Seen(c, states, actions, i, from, end) <= replies
    ensures var k := LastAttempt(c.timing.retry, replies);
      && Seen(c, states, actions, i, from, end) == replies[..k]
      && 1 + Wakes(actions, i, from, end) == k
      && Told(c, states[end - 1], states[end], i, states[from].execs[i].phase.permit, replies[k - 1])
      && var q := states[end].execs[i].phase;
         match replies[k - 1]
         case Approved(providerId) => q == Settling(providerId)
         case Failed(error) =>
           if error.Rejected? || error.CircuitOpen? then q == Releasing(error)
           else q == Answered(ProviderFailed(error))
  {
    var seen := Seen(c, states, actions, i, from, end);
    SpanAccounts(c, states, actions, i, from, end);
    assert seen == replies[0..|seen|];
    ReadsAsTheLoop(c.timing.retry, 1, seen, replies);
  }

  // ---- Sleeps --------------------------------------------------------------------------------

  lemma SleepGoesOn(c: Config, s: State, a: Action, i: nat)
    requires Enabled(c, s, a) && i in s.execs && s.execs[i].phase.Sleeping?
    requires i in After(c, s, a).execs && After(c, s, a).execs[i].phase.Sleeping?
    ensures After(c, s, a).execs[i].phase == s.execs[i].phase
  {
    if Moves(a, i) {
      OwnStepAtProvider(c, s, a, i);
      if !a.Wake? {
        OwnReply(c, s, a);
      }
    } else {
      OthersLeaveAttempt(c, s, a, i);
    }
  }

  predicate Asleep(s: State, i: nat) {
    i in s.execs && s.execs[i].phase.Sleeping?
  }

  lemma StepOfSleep(c: Config, states: seq<State>, actions: seq<Action>, i: nat, n: nat)
    requires Run(c, states, actions) && n < |actions| && Asleep(states[n], i) && Asleep(states[n + 1], i)
    ensures states[n + 1].execs[i].phase == states[n].execs[i].phase
  {
    assert Enabled(c, states[n], actions[n]) && states[n + 1] == After(c, states[n], actions[n]);
    SleepGoesOn(c, states[n], actions[n], i);
  }

  /** Execution `i` is asleep in both, and it is the same sleep. */
  predicate SleepsOn(s: State, v: State, i: nat) {
    Asleep(s, i) && Asleep(v, i) && v.execs[i].phase == s.execs[i].phase
  }

  lemma {:induction false} SleepsThrough(states: seq<State>, i: nat, n: nat, m: nat)
    requires n <= m < |states| && Asleep(states[n], i)
    requires forall j :: n <= j < m ==> SleepsOn(states[j], states[j + 1], i)
    ensures SleepsOn(states[n], states[m], i)
    decreases m - n
  {
    if n < m {
      SleepsThrough(states, i, n, m - 1);
      assert SleepsOn(states[m - 1], states[m - 1 + 1], i);
    }
  }

  lemma SameSleep(c: Config, states: seq<State>, actions: seq<Action>, i: nat, n: nat, m: nat)
    requires Run(c, states, actions) && n <= m < |states|
    requires forall j :: n <= j <= m ==> Asleep(states[j], i)
    ensures SleepsOn(states[n], states[m], i)
  {
    forall j: nat | n <= j < m
      ensures SleepsOn(states[j], states[j + 1], i)
    {
      StepOfSleep(c, states, actions, i, j);
    }
    SleepsThrough(states, i, n, m);
  }

  lemma ReplyStartsSleep(c: Config, s: State, a: Action)
    requires Enabled(c, s, a) && (a.Receive? || a.LoseReply?) && After(c, s, a).execs[a.i].phase.Sleeping?
    ensures var p, q := s.execs[a.i].phase, After(c, s, a).execs[a.i].phase;
      q.attempt == p.attempt && q.until == s.now + DelayAfter(c.timing.retry, p.attempt, a.random)
  {
    OwnReply(c, s, a);
  }

  /** A failed attempt at step n and the next call at step m are at least the computed delay apart. */
  lemma SleepLastsItsDelay(c: Config, states: seq<State>, actions: seq<Action>, i: nat, n: nat, m: nat)
    requires Run(c, states, actions) && n < m < |actions|
    requires (actions[n].Receive? || actions[n].LoseReply?) && actions[n].i == i && actions[m] == Wake(i)
    requires i in states[n].execs && states[n].execs[i].phase.Calling?
    requires forall j :: n < j <= m ==> Asleep(states[j], i)
    ensures states[m].now
         >= states[n].now + DelayAfter(c.timing.retry, states[n].execs[i].phase.attempt, actions[n].random)
  {
    assert Enabled(c, states[n], actions[n]) && states[n + 1] == After(c, states[n], actions[n]);
    assert Enabled(c, states[m], actions[m]) && Asleep(states[n + 1], i);
    ReplyStartsSleep(c, states[n], actions[n]);
    SameSleep(c, states, actions, i, n + 1, m);
  }
}
