/**
 * Linearizability over runs, without any hypothesis on timing: when a claim is the one-step claim at
 * some instant inside the call, and when it is at none.
 */
module ProtocolInstants {
  import opened Store
  import opened ClaimLinearization
  import opened Protocol
  import opened ProtocolSafety
  import opened ProtocolClaims
  import opened ProtocolLinearization
  import ProtocolResults

  /**
   * Let the one-step claim run in state k, and what the others commit from there on after it: it
   * answers as execution `i` was answered, and the tables come to what they are at the end.
   */
  ghost predicate AgreesAt(c: Config, states: seq<State>, actions: seq<Action>, i: nat, from: nat, k: nat, end: nat)
    requires Run(c, states, actions) && from <= k < end < |states|
    requires i in states[from].execs && i in states[end].execs
  {
    var (claimed, result) := AtomicClaim(states[k].tables, RequestOf(c, states[from].execs[i]));
    && states[end].execs[i].phase == ClaimPhase(result)
    && ClaimLinearization.PerformAll(claimed, OthersDid(c, states, actions, i, k, end)) == states[end].tables
  }

  ghost predicate AgreesSomewhere(c: Config, states: seq<State>, actions: seq<Action>, i: nat, from: nat, end: nat)
    requires Run(c, states, actions) && ClaimSpan(states, i, from, end)
  {
    exists k: nat :: from <= k < end && AgreesAt(c, states, actions, i, from, k, end)
  }

  ghost predicate HeldFreshAt(c: Config, states: seq<State>, i: nat, from: nat, k: nat)
    requires from <= k < |states| && i in states[from].execs
  {
    HeldFresh(states[k].tables, RequestOf(c, states[from].execs[i]))
  }

  /** In some state of the call the row is held, and not reclaimable. */
  ghost predicate HeldFreshSomewhere(c: Config, states: seq<State>, i: nat, from: nat, end: nat)
    requires ClaimSpan(states, i, from, end)
  {
    exists k: nat :: from <= k < end && HeldFreshAt(c, states, i, from, k)
  }

  /** A statement that decides nothing, or finds the row busy, writes nothing. */
  lemma OwnStepWritesNothing(c: Config, s: State, a: Action)
    requires Enabled(c, s, a) && ClaimStatement(a) && AtStatement(s.execs[a.i].phase)
    requires a.i in After(c, s, a).execs
    requires var q := After(c, s, a).execs[a.i].phase; AtStatement(q) || q == Answered(Busy)
    ensures After(c, s, a).tables == s.tables
  {
    StatementAdvances(c, s, a, NOBODY);
  }

  lemma BusyStep(c: Config, s: State, a: Action, i: nat)
    requires Enabled(c, s, a) && i in s.execs && AtStatement(s.execs[i].phase) && i in After(c, s, a).execs
    requires var q := After(c, s, a).execs[i].phase; AtStatement(q) || q == Answered(Busy)
    ensures After(c, s, a).tables == ClaimLinearization.PerformAll(
              s.tables, if Moves(a, i) then [] else ProtocolResults.Effect(c, s, a))
  {
    if Moves(a, i) {
      OwnStepIsStatement(c, s, a, i);
      OwnStepWritesNothing(c, s, a);
    } else {
      ProtocolResults.StepsAreDbActions(c, s, a);
    }
  }

  /** A claim that finds the row busy leaves the tables to the others. */
  lemma {:induction false} BusyLeavesTables(c: Config, states: seq<State>, actions: seq<Action>, i: nat,
                                            k: nat, end: nat)
    requires Run(c, states, actions) && ClaimSpan(states, i, k, end)
    requires states[end].execs[i].phase == Answered(Busy)
    ensures var done := OthersDid(c, states, actions, i, k, end);
      ClaimLinearization.PerformAll(states[k].tables, done) == states[end].tables
    decreases end - k
  {
    var s, a := states[k], actions[k];
    assert Enabled(c, s, a) && states[k + 1] == After(c, s, a);
    var done := if Moves(a, i) then [] else ProtocolResults.Effect(c, s, a);
    BusyStep(c, s, a, i);
    if k + 1 < end {
      BusyLeavesTables(c, states, actions, i, k + 1, end);
    }
    PerformAppend(s.tables, done, OthersDid(c, states, actions, i, k + 1, end), "");
  }

  lemma BusyAgreesExactly(c: Config, states: seq<State>, actions: seq<Action>, i: nat, from: nat, k: nat, end: nat)
    requires Run(c, states, actions) && ClaimSpan(states, i, from, end) && from <= k < end
    requires Safe(c, states[k]) && states[end].execs[i].phase == Answered(Busy)
    ensures AgreesAt(c, states, actions, i, from, k, end) <==> HeldFreshAt(c, states, i, from, k)
  {
    BusyLeavesTables(c, states, actions, i, k, end);
    SafeIsStatusOk(c, states[k]);
    AnswersProcessingExactly(states[k].tables, RequestOf(c, states[from].execs[i]));
  }

  /** Nothing but the one-step claim gives this answer: a step that is neither busy nor gives up. */
  lemma LastStepAgrees(c: Config, s: State, a: Action)
    requires Safe(c, s) && Enabled(c, s, a) && ClaimStatement(a)
    requires a.i in After(c, s, a).execs && !InClaim(After(c, s, a).execs[a.i].phase)
    requires var q := After(c, s, a).execs[a.i].phase; q != Answered(Busy) && q != ClaimPhase(ChangedDuringClaim)
    ensures ClaimsAtOnce(RequestOf(c, s.execs[a.i]), a.i, s, After(c, s, a))
  {
    ClaimStatementsRefineAtomicClaim(c, s, a);
  }

  lemma DecidedAtOnce(c: Config, s: State, a: Action, i: nat)
    requires Safe(c, s) && Enabled(c, s, a) && i in s.execs && AtStatement(s.execs[i].phase)
    requires i in After(c, s, a).execs
    requires var q := After(c, s, a).execs[i].phase;
      !AtStatement(q) && !q.Gone? && q != Answered(Busy) && q != ClaimPhase(ChangedDuringClaim)
    ensures Moves(a, i) && ClaimsAtOnce(RequestOf(c, s.execs[i]), i, s, After(c, s, a))
  {
    LastStepIsOwn(c, s, a, i);
    OutOfClaim(c, s, a);
    LastStepAgrees(c, s, a);
  }

  lemma DecidedInRun(c: Config, states: seq<State>, actions: seq<Action>, i: nat, k: nat)
    requires Run(c, states, actions) && k < |actions| && Safe(c, states[k])
    requires i in states[k].execs && AtStatement(states[k].execs[i].phase) && i in states[k + 1].execs
    requires var q := states[k + 1].execs[i].phase;
      !AtStatement(q) && !q.Gone? && q != Answered(Busy) && q != ClaimPhase(ChangedDuringClaim)
    ensures Moves(actions[k], i)
    ensures ClaimsAtOnce(RequestOf(c, states[k].execs[i]), i, states[k], states[k + 1])
  {
    assert Enabled(c, states[k], actions[k]) && states[k + 1] == After(c, states[k], actions[k]);
    DecidedAtOnce(c, states[k], actions[k], i);
  }

  /** After the last step there is nothing left for the others to do. */
  lemma NothingAfterLast(c: Config, states: seq<State>, actions: seq<Action>, i: nat, k: nat)
    requires Run(c, states, actions) && k < |actions| && Moves(actions[k], i)
    ensures OthersDid(c, states, actions, i, k, k + 1) == []
  {}

  lemma AtOnceAgrees(c: Config, states: seq<State>, actions: seq<Action>, i: nat, from: nat, k: nat)
    requires Run(c, states, actions) && from <= k < |actions| && Moves(actions[k], i)
    requires i in states[from].execs && i in states[k].execs && i in states[k + 1].execs
    requires SameRequest(states[from].execs[i], states[k].execs[i])
    requires ClaimsAtOnce(RequestOf(c, states[k].execs[i]), i, states[k], states[k + 1])
    ensures AgreesAt(c, states, actions, i, from, k, k + 1)
  {
    NothingAfterLast(c, states, actions, i, k);
    assert RequestOf(c, states[k].execs[i]) == RequestOf(c, states[from].execs[i]);
  }

  lemma DecidedAgreesAt(c: Config, states: seq<State>, actions: seq<Action>, i: nat, from: nat, k: nat)
    requires Run(c, states, actions) && from <= k < |actions| && Safe(c, states[k]) && i in states[from].execs
    requires i in states[k].execs && AtStatement(states[k].execs[i].phase) && i in states[k + 1].execs
    requires var q := states[k + 1].execs[i].phase;
      !AtStatement(q) && !q.Gone? && q != Answered(Busy) && q != ClaimPhase(ChangedDuringClaim)
    ensures AgreesAt(c, states, actions, i, from, k, k + 1)
  {
    DecidedInRun(c, states, actions, i, k);
    RequestKept(c, states, actions, i, from, k);
    AtOnceAgrees(c, states, actions, i, from, k);
  }

  lemma GivingUpAgreesNowhere(c: Config, states: seq<State>, actions: seq<Action>, i: nat, from: nat, k: nat, end: nat)
    requires Run(c, states, actions) && ClaimSpan(states, i, from, end) && from <= k < end && Safe(c, states[k])
    requires states[end].execs[i].phase == ClaimPhase(ChangedDuringClaim)
    ensures !AgreesAt(c, states, actions, i, from, k, end)
  {
    SafeIsStatusOk(c, states[k]);
    AnswersProcessingExactly(states[k].tables, RequestOf(c, states[from].execs[i]));
  }

  lemma BusyAgreesSomewhere(c: Config, states: seq<State>, actions: seq<Action>, i: nat, from: nat, end: nat)
    requires Run(c, states, actions) && ClaimSpan(states, i, from, end) && c.timing.processingStaleTimeoutMs >= 0
    requires states[end].execs[i].phase == Answered(Busy)
    ensures AgreesSomewhere(c, states, actions, i, from, end) <==> HeldFreshSomewhere(c, states, i, from, end)
  {
    forall k: nat | from <= k < end
      ensures AgreesAt(c, states, actions, i, from, k, end) <==> HeldFreshAt(c, states, i, from, k)
    {
      SafeAlways(c, states, actions, k);
      BusyAgreesExactly(c, states, actions, i, from, k, end);
    }
  }

  lemma GivingUpDisagrees(c: Config, states: seq<State>, actions: seq<Action>, i: nat, from: nat, end: nat)
    requires Run(c, states, actions) && ClaimSpan(states, i, from, end) && c.timing.processingStaleTimeoutMs >= 0
    requires states[end].execs[i].phase == ClaimPhase(ChangedDuringClaim)
    ensures !AgreesSomewhere(c, states, actions, i, from, end)
  {
    forall k: nat | from <= k < end
      ensures !AgreesAt(c, states, actions, i, from, k, end)
    {
      SafeAlways(c, states, actions, k);
      GivingUpAgreesNowhere(c, states, actions, i, from, k, end);
    }
  }

  lemma DecidedAgrees(c: Config, states: seq<State>, actions: seq<Action>, i: nat, from: nat, end: nat)
    requires Run(c, states, actions) && ClaimSpan(states, i, from, end) && c.timing.processingStaleTimeoutMs >= 0
    requires states[end].execs[i].phase != Answered(Busy)
    requires states[end].execs[i].phase != ClaimPhase(ChangedDuringClaim)
    ensures AgreesSomewhere(c, states, actions, i, from, end)
  {
    SafeAlways(c, states, actions, end - 1);
    DecidedAgreesAt(c, states, actions, i, from, end - 1);
  }

  /**
   * In every run, a claim is the one-step claim at some instant inside the call if and only if it does
   * not give up, and finds the row busy only where, at some instant, it was held and not reclaimable.
   */
  lemma RunLinearizesExactly(c: Config, states: seq<State>, actions: seq<Action>, i: nat, from: nat, end: nat)
    requires Run(c, states, actions) && ClaimSpan(states, i, from, end) && c.timing.processingStaleTimeoutMs >= 0
    ensures AgreesSomewhere(c, states, actions, i, from, end) <==>
      && states[end].execs[i].phase != ClaimPhase(ChangedDuringClaim)
      && (states[end].execs[i].phase == Answered(Busy) ==> HeldFreshSomewhere(c, states, i, from, end))
  {
    var q := states[end].execs[i].phase;
    if q == Answered(Busy) {
      BusyAgreesSomewhere(c, states, actions, i, from, end);
    } else if q == ClaimPhase(ChangedDuringClaim) {
      GivingUpDisagrees(c, states, actions, i, from, end);
    } else {
      DecidedAgrees(c, states, actions, i, from, end);
    }
  }
}
