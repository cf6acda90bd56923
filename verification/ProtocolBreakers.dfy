/**
 * The breaker of a replica inside a run: with the permits that the replica's executions carry, it is
 * one of the breakers that every interleaving of calls has been considered for.
 */
module ProtocolBreakers {
  import opened Domain
  import opened RetryLoop
  import opened BreakerModel
  import opened Protocol
  import opened ProtocolRetries
  import BreakerRuns

  /** Past the question to the breaker. */
  predicate Asked(p: Phase) {
    !p.Inserting? && !p.Reclaiming? && !p.Selecting? && !p.Claimed?
  }

  /**
   * Replica `r` has the breaker of this world, and its executions at the provider hold the permits
   * that the world has on file under their numbers. An execution that died is still on file.
   */
  ghost predicate Mirrors(s: State, r: nat, w: BreakerRuns.World) {
    && w.breaker == BreakerOf(s, r) && w.now <= s.now
    && (forall i :: i in s.execs && s.execs[i].replica == r && AtProvider(s.execs[i].phase) ==>
          i in w.held && w.held[i] == s.execs[i].phase.permit)
    && (forall i :: i in w.held ==> i in s.execs && s.execs[i].replica == r && Asked(s.execs[i].phase))
  }

  // ---- Steps ---------------------------------------------------------------------------------

  /** The asker gets the breaker's answer, and is past the question. */
  lemma AskIsAnswered(c: Config, s: State, i: nat)
    requires Enabled(c, s, AskBreaker(i))
    ensures var e, v := s.execs[i], AfterAsk(c, s, i);
      var (b, permit) := Acquire(c.breaker, BreakerOf(s, e.replica), s.now);
      && BreakerOf(v, e.replica) == b && v.now == s.now
      && OnlyTouches(s, v, i) && SameRequest(e, v.execs[i]) && Asked(v.execs[i].phase)
      && (AtProvider(v.execs[i].phase) <==> permit.Some?)
      && (permit.Some? ==> v.execs[i].phase.permit == permit.value)
  {}

  /** A permit that is granted is filed under its holder's number. */
  lemma AnswerIsMirrored(c: BreakerConfig, s: State, v: State, i: nat, w: BreakerRuns.World)
    requires i in s.execs && i !in w.held && Mirrors(s, s.execs[i].replica, w)
    requires OnlyTouches(s, v, i) && SameRequest(s.execs[i], v.execs[i]) && Asked(v.execs[i].phase)
    requires var (b, permit) := Acquire(c, w.breaker, s.now);
      && BreakerOf(v, s.execs[i].replica) == b
      && (AtProvider(v.execs[i].phase) <==> permit.Some?)
      && (permit.Some? ==> v.execs[i].phase.permit == permit.value)
    ensures BreakerRuns.Possible(w, BreakerRuns.AskFor(i, s.now))
    ensures Mirrors(v, s.execs[i].replica, BreakerRuns.After(c, w, BreakerRuns.AskFor(i, s.now)))
  {}

  lemma AskIsAskFor(c: Config, s: State, i: nat, w: BreakerRuns.World)
    requires Enabled(c, s, AskBreaker(i)) && Mirrors(s, s.execs[i].replica, w)
    ensures BreakerRuns.Possible(w, BreakerRuns.AskFor(i, s.now))
    ensures Mirrors(AfterAsk(c, s, i), s.execs[i].replica,
                    BreakerRuns.After(c.breaker, w, BreakerRuns.AskFor(i, s.now)))
  {
    AskIsAnswered(c, s, i);
    AnswerIsMirrored(c.breaker, s, AfterAsk(c, s, i), i, w);
  }

  /** The end of the last attempt is a report on the permit its execution was granted. */
  lemma LastAttemptIsReport(c: Config, s: State, i: nat, reply: Reply, random: real, w: BreakerRuns.World)
    requires i in s.execs && s.execs[i].phase.Calling? && Mirrors(s, s.execs[i].replica, w)
    requires Stops(c.timing.retry, reply, s.execs[i].phase.attempt)
    ensures BreakerRuns.Possible(w, BreakerRuns.ReportBy(i, OutcomeOf(reply), s.now))
    ensures Mirrors(AttemptOver(c, s, i, reply, random), s.execs[i].replica,
                    BreakerRuns.After(c.breaker, w, BreakerRuns.ReportBy(i, OutcomeOf(reply), s.now)))
  {}

  /** The breaker of every replica but the mover's own is left alone, and so are the permits there. */
  lemma OtherReplicasKept(c: Config, s: State, a: Action, r: nat)
    requires Enabled(c, s, a) && !a.Tick? && !a.ProviderHandles? && !a.Arrive? && s.execs[a.i].replica != r
    ensures BreakerOf(After(c, s, a), r) == BreakerOf(s, r)
  {}

  predicate TalksToBreaker(a: Action) {
    a.AskBreaker? || a.Receive? || a.LoseReply?
  }

  lemma QuietKeepsBreakers(c: Config, s: State, a: Action)
    requires Enabled(c, s, a) && !TalksToBreaker(a)
    ensures After(c, s, a).breakers == s.breakers
  {}

  /** A step that leaves the breaker alone moves nobody back before the question, and changes no permit. */
  ghost predicate KeepsPermits(s: State, v: State) {
    && s.now <= v.now
    && (forall i :: i in s.execs ==> i in v.execs && SameRequest(s.execs[i], v.execs[i]))
    && (forall i :: i in s.execs && Asked(s.execs[i].phase) ==> Asked(v.execs[i].phase))
    && (forall i :: i in v.execs && AtProvider(v.execs[i].phase) ==>
          && i in s.execs && AtProvider(s.execs[i].phase)
          && v.execs[i].phase.permit == s.execs[i].phase.permit)
  }

  lemma KeptIsMirrored(s: State, v: State, r: nat, w: BreakerRuns.World)
    requires Mirrors(s, r, w) && KeepsPermits(s, v) && BreakerOf(v, r) == BreakerOf(s, r)
    ensures Mirrors(v, r, w)
  {}

  lemma MoverKeepsPermit(c: Config, s: State, a: Action)
    requires Enabled(c, s, a) && !a.Tick? && !a.ProviderHandles? && !a.AskBreaker?
    ensures a.i in After(c, s, a).execs
    ensures var q := After(c, s, a).execs[a.i].phase;
      && (a.i in s.execs && Asked(s.execs[a.i].phase) ==> Asked(q))
      && (AtProvider(q) ==>
            a.i in s.execs && AtProvider(s.execs[a.i].phase) && q.permit == s.execs[a.i].phase.permit)
  {}

  lemma MovedKeepsPermits(s: State, v: State, i: nat)
    requires OnlyTouches(s, v, i)
    requires i in s.execs ==> SameRequest(s.execs[i], v.execs[i])
    requires i in s.execs && Asked(s.execs[i].phase) ==> Asked(v.execs[i].phase)
    requires AtProvider(v.execs[i].phase) ==>
      && i in s.execs && AtProvider(s.execs[i].phase)
      && v.execs[i].phase.permit == s.execs[i].phase.permit
    ensures KeepsPermits(s, v)
  {}

  lemma TickKeepsPermits(s: State, ms: nat)
    ensures KeepsPermits(s, AfterTick(s, ms))
  {}

  lemma ProviderKeepsPermits(s: State, m: Sent, recorded: Option<Text>, reply: Reply)
    ensures KeepsPermits(s, AfterProvider(s, m, recorded, reply))
  {}

  lemma StepKeepsPermits(c: Config, s: State, a: Action)
    requires Enabled(c, s, a) && !a.AskBreaker?
    ensures KeepsPermits(s, After(c, s, a))
  {
    if a.Tick? {
      TickKeepsPermits(s, a.ms);
    } else if a.ProviderHandles? {
      ProviderKeepsPermits(s, a.sent, a.recorded, a.reply);
    } else {
      StepTouchesOne(c, s, a);
      MoverKeepsPermit(c, s, a);
      MovedKeepsPermits(s, After(c, s, a), a.i);
    }
  }

  /** The question of another replica's execution. */
  lemma AskElsewhere(c: Config, s: State, i: nat, r: nat, w: BreakerRuns.World)
    requires Enabled(c, s, AskBreaker(i)) && s.execs[i].replica != r && Mirrors(s, r, w)
    ensures Mirrors(AfterAsk(c, s, i), r, w)
  {}

  /** An attempt that is tried again, or is another replica's. */
  lemma AttemptElsewhere(c: Config, s: State, a: Action, r: nat, w: BreakerRuns.World)
    requires Enabled(c, s, a) && (a.Receive? || a.LoseReply?) && Mirrors(s, r, w)
    requires s.execs[a.i].replica != r ||
      !Stops(c.timing.retry, ReplySeen(c, s, a), s.execs[a.i].phase.attempt)
    ensures Mirrors(After(c, s, a), r, w)
  {
    OwnReply(c, s, a);
    StepKeepsPermits(c, s, a);
    if s.execs[a.i].replica != r {
      OtherReplicasKept(c, s, a, r);
    }
    KeptIsMirrored(s, After(c, s, a), r, w);
  }

  /** What a step of the protocol is to the breaker of a replica: one call, or nothing. */
  lemma StepMirrors(c: Config, s: State, a: Action, r: nat, w: BreakerRuns.World)
    returns (step: Option<BreakerRuns.Step>)
    requires Enabled(c, s, a) && Mirrors(s, r, w)
    ensures match step
      case None => Mirrors(After(c, s, a), r, w)
      case Some(call) =>
        && BreakerRuns.Possible(w, call)
        && Mirrors(After(c, s, a), r, BreakerRuns.After(c.breaker, w, call))
  {
    step := None;
    if a.AskBreaker? {
      if s.execs[a.i].replica == r {
        AskIsAskFor(c, s, a.i, w);
        step := Some(BreakerRuns.AskFor(a.i, s.now));
      } else {
        AskElsewhere(c, s, a.i, r, w);
      }
    } else if a.Receive? || a.LoseReply? {
      var reply := ReplySeen(c, s, a);
      if s.execs[a.i].replica == r && Stops(c.timing.retry, reply, s.execs[a.i].phase.attempt) {
        OwnReply(c, s, a);
        LastAttemptIsReport(c, s, a.i, reply, a.random, w);
        step := Some(BreakerRuns.ReportBy(a.i, OutcomeOf(reply), s.now));
      } else {
        AttemptElsewhere(c, s, a, r, w);
      }
    } else {
      StepKeepsPermits(c, s, a);
      QuietKeepsBreakers(c, s, a);
      KeptIsMirrored(s, After(c, s, a), r, w);
    }
  }

  // ---- Runs ----------------------------------------------------------------------------------

  lemma ExtendWorlds(c: BreakerConfig, worlds: seq<BreakerRuns.World>, steps: seq<BreakerRuns.Step>,
                     step: BreakerRuns.Step)
    requires BreakerRuns.Run(c, worlds, steps) && BreakerRuns.Possible(worlds[|steps|], step)
    ensures BreakerRuns.Run(c, worlds + [BreakerRuns.After(c, worlds[|steps|], step)], steps + [step])
  {
    var longer, acted := worlds + [BreakerRuns.After(c, worlds[|steps|], step)], steps + [step];
    forall i | 0 <= i < |acted|
      ensures BreakerRuns.Possible(longer[i], acted[i]) && longer[i + 1] == BreakerRuns.After(c, longer[i], acted[i])
    {
      if i < |steps| {
        assert longer[i] == worlds[i] && longer[i + 1] == worlds[i + 1] && acted[i] == steps[i];
      }
    }
  }

  /** In every run, what happens to the breaker of a replica is one of the breaker's own runs. */
  lemma {:induction false} ReplicaRunsItsBreaker(c: Config, states: seq<State>, actions: seq<Action>, n: nat, r: nat)
    returns (worlds: seq<BreakerRuns.World>, steps: seq<BreakerRuns.Step>)
    requires Run(c, states, actions) && n < |states|
    ensures BreakerRuns.Run(c.breaker, worlds, steps) && Mirrors(states[n], r, worlds[|steps|])
  {
    if n == 0 {
      worlds, steps := [BreakerRuns.START], [];
    } else {
      worlds, steps := ReplicaRunsItsBreaker(c, states, actions, n - 1, r);
      var step := StepMirrors(c, states[n - 1], actions[n - 1], r, worlds[|steps|]);
      if step.Some? {
        ExtendWorlds(c.breaker, worlds, steps, step.value);
        worlds, steps := worlds + [BreakerRuns.After(c.breaker, worlds[|steps|], step.value)], steps + [step.value];
      }
    }
  }

  /** So everything proved of breakers holds of every replica's, at every moment. */
  lemma ReplicaBreakerInvariant(c: Config, states: seq<State>, actions: seq<Action>, n: nat, r: nat)
    returns (w: BreakerRuns.World)
    requires ValidBreaker(c.breaker) && Run(c, states, actions) && n < |states|
    ensures Mirrors(states[n], r, w) && BreakerRuns.BreakerInvariant(c.breaker, w)
  {
    var worlds, steps := ReplicaRunsItsBreaker(c, states, actions, n, r);
    BreakerRuns.BreakerInvariantHolds(c.breaker, worlds, steps, |steps|);
    w := worlds[|steps|];
  }

  /**
   * In terms of the executions: whoever is at the provider on a current permit has it in the mode the
   * breaker is in, nobody has one while it is open, and one at most while it is half open.
   */
  lemma CurrentPermitsInARun(c: Config, states: seq<State>, actions: seq<Action>, n: nat, i: nat, j: nat)
    requires ValidBreaker(c.breaker) && Run(c, states, actions) && n < |states|
    requires i in states[n].execs && j in states[n].execs
    requires AtProvider(states[n].execs[i].phase) && AtProvider(states[n].execs[j].phase)
    requires states[n].execs[i].replica == states[n].execs[j].replica
    ensures var b := BreakerOf(states[n], states[n].execs[i].replica);
      var p, q := states[n].execs[i].phase.permit, states[n].execs[j].phase.permit;
      && b.consecutiveFailures < c.breaker.failureThreshold
      && p.generation <= b.generation == |b.notices|
      && (p.generation == b.generation ==> p.mode == b.state && !b.state.Open?)
      && (b.state.HalfOpen? && p.generation == q.generation == b.generation ==> i == j)
  {
    var w := ReplicaBreakerInvariant(c, states, actions, n, states[n].execs[i].replica);
    assert i in w.held && j in w.held;
  }
}
