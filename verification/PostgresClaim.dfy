/**
 * A claim is up to six SQL statements, and between any two of them other sessions commit theirs.
 * Seen from outside it is still one atomic step.
 */
module ClaimLinearization {
  import opened Domain
  import opened Store

  /** One statement (or one completion transaction) committed by another session. */
  datatype DbAction =
    | Inserts(request: ClaimRequest)
    | Reclaims(request: ClaimRequest)
    | Completes(completion: Completion)
    | Releases(key: Key, fingerprint: Fingerprint)

  function Perform(t: Tables, a: DbAction): Tables {
    match a
    case Inserts(r) => InsertOperation(t, r).0
    case Reclaims(r) => ReclaimOperation(t, r).0
    case Completes(q) => CommitCompletion(t, q).0
    case Releases(key, fingerprint) => DeleteOperation(t, key, fingerprint)
  }

  function PerformAll(t: Tables, actions: seq<DbAction>): Tables
    decreases |actions|
  {
    if actions == [] then t else PerformAll(Perform(t, actions[0]), actions[1..])
  }

  function Flatten(gaps: seq<seq<DbAction>>): seq<DbAction> {
    if gaps == [] then [] else gaps[0] + Flatten(gaps[1..])
  }

  /** How often `key` loses its row while `actions` run. */
  function Removals(t: Tables, actions: seq<DbAction>, key: Key): nat
    decreases |actions|
  {
    if actions == [] then 0
    else
      var next := Perform(t, actions[0]);
      (if key in t.operations && key !in next.operations then 1 else 0) + Removals(next, actions[1..], key)
  }

  lemma {:induction false} PerformAppend(t: Tables, a: seq<DbAction>, b: seq<DbAction>, key: Key)
    ensures PerformAll(t, a + b) == PerformAll(PerformAll(t, a), b)
    ensures Removals(t, a + b, key) == Removals(t, a, key) + Removals(PerformAll(t, a), b, key)
    decreases |a|
  {
    if a == [] {
      assert a + b == b;
    } else {
      assert (a + b)[1..] == a[1..] + b;
      PerformAppend(Perform(t, a[0]), a[1..], b, key);
    }
  }

  lemma {:induction false} FlattenAppend(gaps: seq<seq<DbAction>>, gap: seq<DbAction>)
    ensures Flatten(gaps + [gap]) == Flatten(gaps) + gap
  {
    if gaps != [] {
      assert (gaps + [gap])[1..] == gaps[1..] + [gap];
      FlattenAppend(gaps[1..], gap);
    } else {
      assert gaps + [gap] == [gap];
      assert [gap][1..] == [];
    }
  }

  lemma {:induction false} GoneMeansRemoved(t: Tables, actions: seq<DbAction>, key: Key)
    requires key in t.operations && key !in PerformAll(t, actions).operations
    ensures Removals(t, actions, key) >= 1
    decreases |actions|
  {
    if key in Perform(t, actions[0]).operations {
      GoneMeansRemoved(Perform(t, actions[0]), actions[1..], key);
    }
  }

  /** The part of the table constraints that the claim reads: a row has a transaction iff it is completed. */
  ghost predicate StatusOk(t: Tables) {
    forall k :: k in t.operations ==>
      (t.operations[k].status.Completed? <==> t.operations[k].transactionId.Some?)
  }

  lemma {:induction false} StatusKept(t: Tables, actions: seq<DbAction>)
    requires StatusOk(t)
    ensures StatusOk(PerformAll(t, actions))
    decreases |actions|
  {
    if actions != [] {
      StatusKept(Perform(t, actions[0]), actions[1..]);
    }
  }

  /**
   * How a claim went: its result, the tables just before and just after its last statement, and how
   * many of the six gaps had passed by then.
   */
  datatype ClaimTrace = ClaimTrace(result: ClaimResult, before: Tables, after: Tables, passed: nat)

  /** Rounds `round`, `round + 1`, ... of a claim; `gaps[i]` is what others commit before statement i. */
  function Rounds(t: Tables, r: ClaimRequest, gaps: seq<seq<DbAction>>, round: nat): (trace: ClaimTrace)
    requires |gaps| == 6 && round <= 2
    ensures trace.passed <= 6
    decreases 2 - round, 2
  {
    if round == 2 then ClaimTrace(ChangedDuringClaim, t, t, 6)
    else
      var t1 := PerformAll(t, gaps[3 * round]);
      var inserted := InsertOperation(t1, r);
      if inserted.1 then ClaimTrace(NewClaim, t1, inserted.0, 3 * round + 1)
      else FromReclaim(t1, r, gaps, round)
  }

  /** The same from the UPDATE of a round on. */
  function FromReclaim(t: Tables, r: ClaimRequest, gaps: seq<seq<DbAction>>, round: nat): (trace: ClaimTrace)
    requires |gaps| == 6 && round < 2
    ensures trace.passed <= 6
    decreases 2 - round, 1
  {
    var t2 := PerformAll(t, gaps[3 * round + 1]);
    var reclaimed := ReclaimOperation(t2, r);
    if reclaimed.1 then ClaimTrace(NewClaim, t2, reclaimed.0, 3 * round + 2)
    else FromSelect(t2, r, gaps, round)
  }

  /** The same from the SELECT of a round on. */
  function FromSelect(t: Tables, r: ClaimRequest, gaps: seq<seq<DbAction>>, round: nat): (trace: ClaimTrace)
    requires |gaps| == 6 && round < 2
    ensures trace.passed <= 6
    decreases 2 - round, 0
  {
    var t3 := PerformAll(t, gaps[3 * round + 2]);
    match SelectOperation(t3, r)
    case Some(result) => ClaimTrace(result, t3, t3, 3 * round + 3)
    case None => Rounds(t3, r, gaps, round + 1)
  }

  const FIRST_ROUND: nat := 0

  function Claim(t: Tables, r: ClaimRequest, gaps: seq<seq<DbAction>>): (trace: ClaimTrace)
    requires |gaps| == 6
    ensures trace.passed <= 6
  {
    Rounds(t, r, gaps, FIRST_ROUND)
  }

  /** What other sessions had done when gap n was over, if the claim itself had changed nothing. */
  ghost function Reached(t: Tables, gaps: seq<seq<DbAction>>, n: nat): Tables
    requires n <= |gaps|
  {
    PerformAll(t, Flatten(gaps[..n]))
  }

  lemma ReachedNext(t: Tables, gaps: seq<seq<DbAction>>, n: nat)
    requires n < |gaps|
    ensures Reached(t, gaps, n + 1) == PerformAll(Reached(t, gaps, n), gaps[n])
  {
    assert gaps[..n + 1] == gaps[..n] + [gaps[n]];
    FlattenAppend(gaps[..n], gaps[n]);
    PerformAppend(t, Flatten(gaps[..n]), gaps[n], "");
  }

  /** A round of a claim ends at one of its statements, or leaves everything to the next round. */
  lemma RoundEndsAtStatement(t: Tables, r: ClaimRequest, gaps: seq<seq<DbAction>>, round: nat)
    requires |gaps| == 6 && round < 2
    ensures var first, trace := 3 * round, Rounds(t, r, gaps, round);
      var t1 := PerformAll(t, gaps[first]);
      var t2 := PerformAll(t1, gaps[first + 1]);
      var t3 := PerformAll(t2, gaps[first + 2]);
      || (trace.result.NewClaim? && trace.passed == first + 1 && trace.before == t1)
      || (trace.result.NewClaim? && trace.passed == first + 2 && trace.before == t2)
      || (!Stale(t2, r) && trace.passed == first + 3 && trace.before == t3 && trace.after == t3)
      || trace == Rounds(t3, r, gaps, round + 1)
  {
    var t1 := PerformAll(t, gaps[3 * round]);
    var t2 := PerformAll(t1, gaps[3 * round + 1]);
    var t3 := PerformAll(t2, gaps[3 * round + 2]);
    if !InsertOperation(t1, r).1 {
      assert Rounds(t, r, gaps, round) == FromReclaim(t1, r, gaps, round);
      if !ReclaimOperation(t2, r).1 {
        assert FromReclaim(t1, r, gaps, round) == FromSelect(t2, r, gaps, round);
        assert SelectOperation(t3, r).None? ==> FromSelect(t2, r, gaps, round) == Rounds(t3, r, gaps, round + 1);
      }
    }
  }

  lemma ReachedThrice(t: Tables, gaps: seq<seq<DbAction>>, n: nat)
    requires n + 3 <= |gaps|
    ensures Reached(t, gaps, n + 1) == PerformAll(Reached(t, gaps, n), gaps[n])
    ensures Reached(t, gaps, n + 2) == PerformAll(Reached(t, gaps, n + 1), gaps[n + 1])
    ensures Reached(t, gaps, n + 3) == PerformAll(Reached(t, gaps, n + 2), gaps[n + 2])
  {
    ReachedNext(t, gaps, n);
    ReachedNext(t, gaps, n + 1);
    ReachedNext(t, gaps, n + 2);
  }

  lemma RoundReaches(t: Tables, r: ClaimRequest, gaps: seq<seq<DbAction>>, round: nat)
    requires |gaps| == 6 && round < 2
    ensures var trace := Rounds(Reached(t, gaps, 3 * round), r, gaps, round);
      || (1 <= trace.passed <= 6 && trace.before == Reached(t, gaps, trace.passed)
          && (trace.result.InProgress? ==>
                trace.after == trace.before && !Stale(Reached(t, gaps, trace.passed - 1), r)))
      || trace == Rounds(Reached(t, gaps, 3 * (round + 1)), r, gaps, round + 1)
  {
    ReachedThrice(t, gaps, 3 * round);
    RoundEndsAtStatement(Reached(t, gaps, 3 * round), r, gaps, round);
  }

  /** Until its last statement the claim has changed nothing: it saw only the work of others. */
  lemma {:induction false} ClaimChangesNothingBefore(t: Tables, r: ClaimRequest, gaps: seq<seq<DbAction>>, round: nat)
    requires |gaps| == 6 && round <= 2
    ensures var trace := Rounds(Reached(t, gaps, 3 * round), r, gaps, round);
      trace.passed <= 6 && trace.before == Reached(t, gaps, trace.passed)
    decreases 2 - round
  {
    if round < 2 {
      RoundReaches(t, r, gaps, round);
      ClaimChangesNothingBefore(t, r, gaps, round + 1);
    }
  }

  /** The atomic claim at the instant of the last statement does and answers the same. */
  ghost predicate AgreesWithAtomic(trace: ClaimTrace, r: ClaimRequest) {
    (trace.after, trace.result) == AtomicClaim(trace.before, r)
  }

  /** The one other thing that can happen: a row that went stale after the reclaim is reported as in progress. */
  ghost predicate MissedReclaim(trace: ClaimTrace, r: ClaimRequest) {
    trace.result.InProgress? && trace.after == trace.before && Stale(trace.before, r)
  }

  /** One round: the atomic claim, a missed reclaim, or the next round. */
  lemma RoundIsAtomicOrMissesReclaim(t: Tables, r: ClaimRequest, gaps: seq<seq<DbAction>>, round: nat)
    requires |gaps| == 6 && round < 2 && StatusOk(t)
    ensures var trace := Rounds(t, r, gaps, round);
      var t2 := PerformAll(PerformAll(t, gaps[3 * round]), gaps[3 * round + 1]);
      var t3 := PerformAll(t2, gaps[3 * round + 2]);
      || AgreesWithAtomic(trace, r)
      || (MissedReclaim(trace, r) && !Stale(t2, r) && Stale(t3, r))
      || (StatusOk(t3) && trace == Rounds(t3, r, gaps, round + 1))
  {
    var t1 := PerformAll(t, gaps[3 * round]);
    var t2 := PerformAll(t1, gaps[3 * round + 1]);
    StatusKept(t, gaps[3 * round]);
    StatusKept(t1, gaps[3 * round + 1]);
    StatusKept(t2, gaps[3 * round + 2]);
  }

  lemma {:induction false} ClaimIsAtomicOrMissesReclaim(t: Tables, r: ClaimRequest, gaps: seq<seq<DbAction>>,
                                                        round: nat)
    requires |gaps| == 6 && round <= 2 && StatusOk(t)
    ensures var trace := Rounds(t, r, gaps, round);
      trace.result.ChangedDuringClaim? || AgreesWithAtomic(trace, r) || MissedReclaim(trace, r)
    decreases 2 - round
  {
    if round < 2 {
      RoundIsAtomicOrMissesReclaim(t, r, gaps, round);
      var t2 := PerformAll(PerformAll(t, gaps[3 * round]), gaps[3 * round + 1]);
      var t3 := PerformAll(t2, gaps[3 * round + 2]);
      if StatusOk(t3) {
        ClaimIsAtomicOrMissesReclaim(t3, r, gaps, round + 1);
      }
    }
  }

  /**
   * Linearizability. Whatever others commit between the statements, there is an instant inside the
   * call at which the atomic claim has the same effect and the same answer; failing that, the atomic
   * claim would have said `new_claim` and this one said `processing`; failing that, it gave up.
   */
  lemma ClaimIsLinearizable(t: Tables, r: ClaimRequest, gaps: seq<seq<DbAction>>)
    requires |gaps| == 6 && StatusOk(t)
    ensures var trace := Claim(t, r, gaps);
      trace.result.ChangedDuringClaim? ||
      exists n :: 1 <= n <= 6 &&
        var instant := Reached(t, gaps, n);
        || (trace.after, trace.result) == AtomicClaim(instant, r)
        || (trace.result.InProgress? && AtomicClaim(instant, r).1.NewClaim? && trace.after == instant)
  {
    var trace := Claim(t, r, gaps);
    assert gaps[..0] == [];
    ClaimChangesNothingBefore(t, r, gaps, FIRST_ROUND);
    ClaimIsAtomicOrMissesReclaim(t, r, gaps, FIRST_ROUND);
    if !trace.result.ChangedDuringClaim? {
      assert trace.before == Reached(t, gaps, trace.passed);
      assert 1 <= trace.passed;
    }
  }

  // ---- When the reclaim is missed ------------------------------------------------------------

  /** A commit that leaves the row of the request's key processing, with a claim time it counts as stale. */
  predicate WritesOldClaim(t: Tables, a: DbAction, r: ClaimRequest) {
    && (a.Inserts? || a.Reclaims?)
    && a.request.key == r.key && a.request.fingerprint == r.fingerprint && a.request.claimedAt <= r.staleBefore
    && if a.Inserts? then r.key !in t.operations else Stale(t, a.request)
  }

  lemma BecomesStaleExactly(t: Tables, a: DbAction, r: ClaimRequest)
    requires !Stale(t, r)
    ensures Stale(Perform(t, a), r) <==> WritesOldClaim(t, a, r)
  {}

  ghost predicate StaleFrom(t: Tables, gap: seq<DbAction>, r: ClaimRequest, j: int)
    requires 0 <= j < |gap|
  {
    && WritesOldClaim(PerformAll(t, gap[..j]), gap[j], r)
    && forall k :: j < k <= |gap| ==> Stale(PerformAll(t, gap[..k]), r)
  }

  /** Some commit in the gap writes an old claim time, and after it the row stays reclaimable. */
  ghost predicate GoesStale(t: Tables, gap: seq<DbAction>, r: ClaimRequest) {
    exists j :: 0 <= j < |gap| && StaleFrom(t, gap, r, j)
  }

  lemma PerformLast(t: Tables, gap: seq<DbAction>)
    requires gap != []
    ensures PerformAll(t, gap) == Perform(PerformAll(t, gap[..|gap| - 1]), gap[|gap| - 1])
  {
    var last := [gap[|gap| - 1]];
    assert gap == gap[..|gap| - 1] + last;
    PerformAppend(t, gap[..|gap| - 1], last, "");
    assert last[1..] == [];
  }

  lemma StaleFromExtends(t: Tables, gap: seq<DbAction>, r: ClaimRequest, j: int)
    requires 0 <= j < |gap| - 1 && StaleFrom(t, gap[..|gap| - 1], r, j) && Stale(PerformAll(t, gap), r)
    ensures StaleFrom(t, gap, r, j)
  {
    var front := gap[..|gap| - 1];
    assert gap[..|gap|] == gap && front[..j] == gap[..j];
    forall k | j < k <= |gap|
      ensures Stale(PerformAll(t, gap[..k]), r)
    {
      if k < |gap| {
        assert front[..k] == gap[..k];
      }
    }
  }

  lemma {:induction false} GapGoesStaleExactly(t: Tables, gap: seq<DbAction>, r: ClaimRequest)
    requires !Stale(t, r)
    ensures Stale(PerformAll(t, gap), r) <==> GoesStale(t, gap, r)
    decreases |gap|
  {
    assert gap[..|gap|] == gap;
    if gap != [] && Stale(PerformAll(t, gap), r) {
      var n := |gap| - 1;
      PerformLast(t, gap);
      GapGoesStaleExactly(t, gap[..n], r);
      if Stale(PerformAll(t, gap[..n]), r) {
        var j :| 0 <= j < n && StaleFrom(t, gap[..n], r, j);
        StaleFromExtends(t, gap, r, j);
      } else {
        BecomesStaleExactly(PerformAll(t, gap[..n]), gap[n], r);
        assert StaleFrom(t, gap, r, n);
      }
    }
  }

  /** A claim that answers `processing` found nothing to reclaim one statement earlier. */
  lemma {:induction false} InProgressWasNotStale(t: Tables, r: ClaimRequest, gaps: seq<seq<DbAction>>, round: nat)
    requires |gaps| == 6 && round <= 2
    ensures var trace := Rounds(Reached(t, gaps, 3 * round), r, gaps, round);
      trace.result.InProgress? ==>
        1 <= trace.passed <= 6 && trace.after == trace.before && !Stale(Reached(t, gaps, trace.passed - 1), r)
    decreases 2 - round
  {
    if round < 2 {
      RoundReaches(t, r, gaps, round);
      InProgressWasNotStale(t, r, gaps, round + 1);
    }
  }

  /**
   * At its last statement the claim answers otherwise than the one-step claim if and only if it
   * answers `processing` and, between its UPDATE and its SELECT, the row was given an old claim time.
   */
  lemma LastStatementDiffersExactly(t: Tables, r: ClaimRequest, gaps: seq<seq<DbAction>>)
    requires |gaps| == 6 && StatusOk(t) && !Claim(t, r, gaps).result.ChangedDuringClaim?
    ensures var trace := Claim(t, r, gaps);
      && (trace.result.InProgress? ==> 1 <= trace.passed <= 6)
      && (AgreesWithAtomic(trace, r) <==>
            !(trace.result.InProgress?
              && GoesStale(Reached(t, gaps, trace.passed - 1), gaps[trace.passed - 1], r)))
  {
    var trace := Claim(t, r, gaps);
    assert gaps[..0] == [];
    ClaimChangesNothingBefore(t, r, gaps, FIRST_ROUND);
    ClaimIsAtomicOrMissesReclaim(t, r, gaps, FIRST_ROUND);
    InProgressWasNotStale(t, r, gaps, FIRST_ROUND);
    if trace.result.InProgress? {
      var n := trace.passed - 1;
      ReachedNext(t, gaps, n);
      GapGoesStaleExactly(Reached(t, gaps, n), gaps[n], r);
    }
  }

  // ---- When no instant agrees ----------------------------------------------------------------

  /** A processing row under the request's fingerprint that the request may not reclaim. */
  predicate HeldFresh(t: Tables, r: ClaimRequest) {
    HeldUnder(t, r.key, r.fingerprint) && !Stale(t, r)
  }

  /** What others commit from the beginning of the call to its last statement. */
  function Meanwhile(gaps: seq<seq<DbAction>>, trace: ClaimTrace): seq<DbAction>
    requires trace.passed <= |gaps|
  {
    Flatten(gaps[..trace.passed])
  }

  /**
   * Let the one-step claim run after k of these commits, and the others after it: it answers as this
   * claim did, and the tables come to what this claim left.
   */
  ghost predicate LinearizesAt(t: Tables, r: ClaimRequest, trace: ClaimTrace, done: seq<DbAction>, k: int)
    requires 0 <= k <= |done|
  {
    var (claimed, result) := AtomicClaim(PerformAll(t, done[..k]), r);
    result == trace.result && PerformAll(claimed, done[k..]) == trace.after
  }

  ghost predicate Linearizes(t: Tables, r: ClaimRequest, gaps: seq<seq<DbAction>>)
    requires |gaps| == 6
  {
    var trace := Claim(t, r, gaps);
    var done := Meanwhile(gaps, trace);
    exists k :: 0 <= k <= |done| && LinearizesAt(t, r, trace, done, k)
  }

  /** At some instant the row is held, and not reclaimable. */
  ghost predicate SeenHeldFresh(t: Tables, r: ClaimRequest, done: seq<DbAction>) {
    exists k :: 0 <= k <= |done| && HeldFresh(PerformAll(t, done[..k]), r)
  }

  /** The one-step claim answers `processing` exactly on a row that is held fresh, and changes nothing. */
  lemma AnswersProcessingExactly(t: Tables, r: ClaimRequest)
    requires StatusOk(t)
    ensures AtomicClaim(t, r).1.InProgress? <==> HeldFresh(t, r)
    ensures AtomicClaim(t, r).1.InProgress? ==> AtomicClaim(t, r).0 == t
    ensures !AtomicClaim(t, r).1.ChangedDuringClaim?
  {}

  lemma PrefixesPerform(t: Tables, done: seq<DbAction>, k: int)
    requires 0 <= k <= |done| && StatusOk(t)
    ensures PerformAll(PerformAll(t, done[..k]), done[k..]) == PerformAll(t, done)
    ensures StatusOk(PerformAll(t, done[..k]))
  {
    assert done == done[..k] + done[k..];
    PerformAppend(t, done[..k], done[k..], "");
    StatusKept(t, done[..k]);
  }

  lemma ProcessingLinearizesExactly(t: Tables, r: ClaimRequest, trace: ClaimTrace, done: seq<DbAction>, k: int)
    requires StatusOk(t) && 0 <= k <= |done|
    requires trace.result.InProgress? && trace.after == PerformAll(t, done)
    ensures LinearizesAt(t, r, trace, done, k) <==> HeldFresh(PerformAll(t, done[..k]), r)
  {
    PrefixesPerform(t, done, k);
    AnswersProcessingExactly(PerformAll(t, done[..k]), r);
  }

  /** A claim that answers anything else is the one-step claim at its last statement. */
  lemma OthersLinearizeAtLast(t: Tables, r: ClaimRequest, gaps: seq<seq<DbAction>>)
    requires |gaps| == 6 && StatusOk(t)
    requires !Claim(t, r, gaps).result.ChangedDuringClaim? && !Claim(t, r, gaps).result.InProgress?
    ensures Linearizes(t, r, gaps)
  {
    var trace := Claim(t, r, gaps);
    var done := Meanwhile(gaps, trace);
    assert gaps[..0] == [];
    ClaimChangesNothingBefore(t, r, gaps, FIRST_ROUND);
    ClaimIsAtomicOrMissesReclaim(t, r, gaps, FIRST_ROUND);
    assert done[..|done|] == done && done[|done|..] == [];
    assert LinearizesAt(t, r, trace, done, |done|);
  }

  lemma ProcessingLinearizes(t: Tables, r: ClaimRequest, gaps: seq<seq<DbAction>>)
    requires |gaps| == 6 && StatusOk(t) && Claim(t, r, gaps).result.InProgress?
    ensures Linearizes(t, r, gaps) <==> SeenHeldFresh(t, r, Meanwhile(gaps, Claim(t, r, gaps)))
  {
    var trace := Claim(t, r, gaps);
    var done := Meanwhile(gaps, trace);
    assert gaps[..0] == [];
    ClaimChangesNothingBefore(t, r, gaps, FIRST_ROUND);
    InProgressWasNotStale(t, r, gaps, FIRST_ROUND);
    forall k | 0 <= k <= |done|
      ensures LinearizesAt(t, r, trace, done, k) <==> HeldFresh(PerformAll(t, done[..k]), r)
    {
      ProcessingLinearizesExactly(t, r, trace, done, k);
    }
  }

  /**
   * Linearizability, exactly. The claim is the one-step claim at some instant inside the call if and
   * only if it does not give up, and answers `processing` only where the row was, at some instant,
   * held and not reclaimable.
   */
  lemma LinearizesExactly(t: Tables, r: ClaimRequest, gaps: seq<seq<DbAction>>)
    requires |gaps| == 6 && StatusOk(t)
    ensures var trace := Claim(t, r, gaps);
      Linearizes(t, r, gaps) <==>
        && !trace.result.ChangedDuringClaim?
        && (trace.result.InProgress? ==> SeenHeldFresh(t, r, Meanwhile(gaps, trace)))
  {
    var trace := Claim(t, r, gaps);
    var done := Meanwhile(gaps, trace);
    if trace.result.InProgress? {
      ProcessingLinearizes(t, r, gaps);
    } else if !trace.result.ChangedDuringClaim? {
      OthersLinearizeAtLast(t, r, gaps);
    } else {
      forall k | 0 <= k <= |done|
        ensures !LinearizesAt(t, r, trace, done, k)
      {
        PrefixesPerform(t, done, k);
        AnswersProcessingExactly(PerformAll(t, done[..k]), r);
      }
    }
  }

  // ---- When the reclaim cannot be missed -----------------------------------------------------

  /** A claim by another session that carries a clock reading inside this request's lease window. */
  predicate Recent(a: DbAction, r: ClaimRequest) {
    (a.Inserts? || a.Reclaims?) && a.request.key == r.key ==> a.request.claimedAt > r.staleBefore
  }

  ghost predicate AllRecent(actions: seq<DbAction>, r: ClaimRequest) {
    forall i :: 0 <= i < |actions| ==> Recent(actions[i], r)
  }

  lemma {:induction false} StaysFresh(t: Tables, r: ClaimRequest, actions: seq<DbAction>)
    requires AllRecent(actions, r) && !Stale(t, r)
    ensures !Stale(PerformAll(t, actions), r)
    decreases |actions|
  {
    if actions != [] {
      assert Recent(actions[0], r);
      StaysFresh(Perform(t, actions[0]), r, actions[1..]);
    }
  }

  /** If nobody writes a claim time older than the lease, the claim is exactly the atomic one. */
  lemma {:induction false} TimelyClaimIsAtomic(t: Tables, r: ClaimRequest, gaps: seq<seq<DbAction>>, round: nat)
    requires |gaps| == 6 && round <= 2 && StatusOk(t)
    requires forall i :: 0 <= i < 6 ==> AllRecent(gaps[i], r)
    ensures var trace := Rounds(t, r, gaps, round);
      trace.result.ChangedDuringClaim? || AgreesWithAtomic(trace, r)
    decreases 2 - round
  {
    if round < 2 {
      RoundIsAtomicOrMissesReclaim(t, r, gaps, round);
      var t2 := PerformAll(PerformAll(t, gaps[3 * round]), gaps[3 * round + 1]);
      var t3 := PerformAll(t2, gaps[3 * round + 2]);
      if !Stale(t2, r) {
        StaysFresh(t2, r, gaps[3 * round + 2]);
      }
      if StatusOk(t3) {
        TimelyClaimIsAtomic(t3, r, gaps, round + 1);
      }
    }
  }

  // ---- When the claim gives up ---------------------------------------------------------------

  lemma RoundWithoutResultSeesRemoval(t: Tables, r: ClaimRequest, gaps: seq<seq<DbAction>>, round: nat)
    requires |gaps| == 6 && round < 2
    requires Rounds(t, r, gaps, round).result.ChangedDuringClaim?
    ensures var first := 3 * round;
      var actions := gaps[first] + gaps[first + 1] + gaps[first + 2];
      && Removals(t, actions, r.key) >= 1
      && Rounds(PerformAll(t, actions), r, gaps, round + 1).result.ChangedDuringClaim?
  {
    var first := 3 * round;
    var t1 := PerformAll(t, gaps[first]);
    var t2 := PerformAll(t1, gaps[first + 1]);
    PerformAppend(t, gaps[first], gaps[first + 1], r.key);
    PerformAppend(t, gaps[first] + gaps[first + 1], gaps[first + 2], r.key);
    if r.key in t2.operations {
      GoneMeansRemoved(t2, gaps[first + 2], r.key);
    } else {
      GoneMeansRemoved(t1, gaps[first + 1], r.key);
    }
  }

  lemma FlattenOne(gaps: seq<seq<DbAction>>, n: nat)
    requires n < |gaps|
    ensures Flatten(gaps[n..]) == gaps[n] + Flatten(gaps[n + 1..])
  {
    assert gaps[n..][1..] == gaps[n + 1..];
  }

  lemma FlattenThree(gaps: seq<seq<DbAction>>, n: nat)
    requires n + 3 <= |gaps|
    ensures Flatten(gaps[n..]) == gaps[n] + gaps[n + 1] + gaps[n + 2] + Flatten(gaps[n + 3..])
  {
    FlattenOne(gaps, n);
    FlattenOne(gaps, n + 1);
    FlattenOne(gaps, n + 2);
  }

  /** Every round without a result costs the key its row once. */
  lemma {:induction false} EachRoundNeedsARelease(t: Tables, r: ClaimRequest, gaps: seq<seq<DbAction>>, round: nat)
    requires |gaps| == 6 && round <= 2 && Rounds(t, r, gaps, round).result.ChangedDuringClaim?
    ensures Removals(t, Flatten(gaps[3 * round..]), r.key) >= 2 - round
    decreases 2 - round
  {
    if round < 2 {
      var first := 3 * round;
      var actions := gaps[first] + gaps[first + 1] + gaps[first + 2];
      RoundWithoutResultSeesRemoval(t, r, gaps, round);
      EachRoundNeedsARelease(PerformAll(t, actions), r, gaps, round + 1);
      FlattenThree(gaps, first);
      PerformAppend(t, actions, Flatten(gaps[first + 3..]), r.key);
    }
  }

  /** "Changed during claim" means the key lost its row at least twice while the claim ran. */
  lemma GivingUpNeedsTwoReleases(t: Tables, r: ClaimRequest, gaps: seq<seq<DbAction>>)
    requires |gaps| == 6 && Claim(t, r, gaps).result.ChangedDuringClaim?
    ensures Removals(t, Flatten(gaps), r.key) >= 2
  {
    EachRoundNeedsARelease(t, r, gaps, FIRST_ROUND);
    assert gaps[0..] == gaps;
  }
}

/** The repository as the code runs it, statement by statement. */
module PostgresRepository {
  import opened Domain
  import opened Store
  import opened ClaimLinearization
  import Listing
  import InMemoryRepository

  /** The page from one of two moments, and the totals from the other. */
  ghost function PageOf(before: Tables, after: Tables, page: nat, limit: nat, countFirst: bool): Listing.PageResult
    requires page >= 1 && limit >= 1
  {
    var listed := if countFirst then after else before;
    var counted := if countFirst then before else after;
    var total := |counted.transactions|;
    Listing.PageResult(
      Listing.Slice(InMemoryRepository.OrderedList(listed.transactions), (page - 1) * limit, limit),
      page, limit, total, Listing.TotalPages(total, limit))
  }

  lemma {:induction false} KeyedKept(t: Tables, actions: seq<DbAction>)
    requires Listing.Keyed(t.transactions)
    ensures var u := ClaimLinearization.PerformAll(t, actions);
      && Listing.Keyed(u.transactions)
      && t.transactions.Keys <= u.transactions.Keys
    decreases |actions|
  {
    if actions != [] {
      KeyedKept(Perform(t, actions[0]), actions[1..]);
    }
  }

  lemma KeysCount(s: map<Id, Transaction>, t: map<Id, Transaction>)
    requires s.Keys <= t.Keys
    ensures |s| <= |t|
  {
    assert t.Keys == s.Keys + (t.Keys - s.Keys);
    assert |s.Keys| == |s| && |t.Keys| == |t|;
  }

  /**
   * A page beyond the announced last one shows something exactly when the count came first and the
   * table outgrew it before the list was read.
   */
  lemma RacingPage(before: Tables, actions: seq<DbAction>, page: nat, limit: nat, countFirst: bool)
    requires page >= 1 && limit >= 1 && Listing.Keyed(before.transactions)
    ensures var after := ClaimLinearization.PerformAll(before, actions);
      var result := PageOf(before, after, page, limit, countFirst);
      page > result.totalPages && result.data != [] <==>
        countFirst && |before.transactions| <= (page - 1) * limit < |after.transactions|
  {
    var after := ClaimLinearization.PerformAll(before, actions);
    var listed := if countFirst then after else before;
    var counted := if countFirst then before else after;
    KeyedKept(before, actions);
    KeysCount(before.transactions, after.transactions);
    InMemoryRepository.CountIsListLength(listed.transactions);
    Listing.PageBeyond(InMemoryRepository.OrderedList(listed.transactions), |counted.transactions|, page, limit);
  }

  class PostgresTransactionRepository {
    var operations: map<Key, Operation>
    var transactions: map<Id, Transaction>

    ghost function Model(): Tables
      reads this
    {
      Tables(operations, transactions)
    }

    constructor ()
      ensures Model() == EMPTY
    {
      operations, transactions := map[], map[];
    }

    /** Other sessions at work between two of our statements. */
    method Interfere(actions: seq<DbAction>)
      modifies this
      ensures Model() == ClaimLinearization.PerformAll(old(Model()), actions)
    {
      var t := Tables(operations, transactions);
      for i := 0 to |actions|
        invariant ClaimLinearization.PerformAll(t, actions[i..]) == ClaimLinearization.PerformAll(old(Model()), actions)
      {
        assert actions[i..][1..] == actions[i + 1..];
        t := Perform(t, actions[i]);
      }
      operations, transactions := t.operations, t.transactions;
    }

    method InsertStatement(r: ClaimRequest) returns (inserted: bool)
      modifies this
      ensures (Model(), inserted) == InsertOperation(old(Model()), r)
    {
      inserted := r.key !in operations;
      if inserted {
        operations := operations[r.key := FreshRow(r)];
      }
    }

    method ReclaimStatement(r: ClaimRequest) returns (reclaimed: bool)
      modifies this
      ensures (Model(), reclaimed) == ReclaimOperation(old(Model()), r)
    {
      reclaimed := r.key in operations
        && operations[r.key].fingerprint == r.fingerprint
        && operations[r.key].status.Processing?
        && operations[r.key].updatedAt <= r.staleBefore;
      if reclaimed {
        operations := operations[r.key := operations[r.key].(updatedAt := r.claimedAt)];
      }
    }

    /** One round of three statements; `None` when it comes to no answer. */
    method ClaimRound(r: ClaimRequest, gaps: seq<seq<DbAction>>, attempt: nat) returns (result: Option<ClaimResult>)
      requires |gaps| == 6 && attempt < 2
      modifies this
      ensures var trace := Rounds(old(Model()), r, gaps, attempt);
        match result
        case Some(answer) => answer == trace.result && Model() == trace.after
        case None => trace == Rounds(Model(), r, gaps, attempt + 1)
    {
      Interfere(gaps[3 * attempt]);
      var inserted := InsertStatement(r);
      if inserted {
        return Some(NewClaim);
      }
      assert Rounds(old(Model()), r, gaps, attempt) == FromReclaim(Model(), r, gaps, attempt);
      Interfere(gaps[3 * attempt + 1]);
      var reclaimed := ReclaimStatement(r);
      if reclaimed {
        return Some(NewClaim);
      }
      assert Rounds(old(Model()), r, gaps, attempt) == FromSelect(Model(), r, gaps, attempt);
      Interfere(gaps[3 * attempt + 2]);
      result := SelectOperation(Tables(operations, transactions), r);
    }

    /** `gaps[i]` is committed by other sessions just before statement i of the at most six. */
    method ClaimIdempotencyOperation(r: ClaimRequest, gaps: seq<seq<DbAction>>) returns (result: ClaimResult)
      requires |gaps| == 6
      modifies this
      ensures var trace := Claim(old(Model()), r, gaps);
        result == trace.result && Model() == trace.after
    {
      for attempt := 0 to 2
        invariant Rounds(Model(), r, gaps, attempt) == Claim(old(Model()), r, gaps)
      {
        var row := ClaimRound(r, gaps, attempt);
        if row.Some? {
          return row.value;
        }
      }
      return ChangedDuringClaim;
    }

    /** The completion transaction: both writes commit, or neither does and the call throws. */
    method CompleteIdempotencyOperation(q: Completion) returns (completed: bool)
      modifies this
      ensures (Model(), completed) == CommitCompletion(old(Model()), q)
    {
      var savedTransactions := transactions;
      if q.transaction.id in transactions {
        return false;
      }
      transactions := transactions[q.transaction.id := q.transaction];
      if q.key !in operations
         || operations[q.key].fingerprint != q.fingerprint
         || !operations[q.key].status.Processing?
         || q.completedAt < operations[q.key].createdAt {
        transactions := savedTransactions;
        return false;
      }
      operations := operations[q.key := CompletedRow(operations[q.key], q)];
      return true;
    }

    method ReleaseIdempotencyOperation(key: Key, fingerprint: Fingerprint)
      modifies this
      ensures Model() == DeleteOperation(old(Model()), key, fingerprint)
    {
      if key in operations && operations[key].fingerprint == fingerprint && operations[key].status.Processing? {
        operations := operations - {key};
      }
    }

    /**
     * `ListTransactions.execute` on this repository: list and count are two queries under way at once,
     * either may be answered first, and others commit in between.
     */
    method ListTransactions(page: nat, limit: nat, countFirst: bool, between: seq<DbAction>)
      returns (result: Listing.PageResult)
      requires page >= 1 && limit >= 1 && Listing.Keyed(transactions)
      modifies this
      ensures Model() == ClaimLinearization.PerformAll(old(Model()), between)
      ensures result == PageOf(old(Model()), Model(), page, limit, countFirst)
    {
      var counted, rows := |transactions|, transactions;
      KeyedKept(Model(), between);
      Interfere(between);
      if countFirst {
        rows := transactions;
      } else {
        counted := |transactions|;
      }
      var sorted := InMemoryRepository.Sorted(rows);
      result := Listing.PageResult(Listing.Slice(sorted, (page - 1) * limit, limit), page, limit, counted,
                                   Listing.TotalPages(counted, limit));
    }
  }
}
