/** The tracker against the bare list of calls on it: what was begun, what was released, who waited. */
module TrackerHistory {
  import opened TrackerModel

  predicate Stopped(es: seq<Event>) {
    StartShutdown in es
  }

  /** How many requests were let in: the begins before the first shutdown. They are numbered in order. */
  function Begun(es: seq<Event>): nat {
    if es == [] then 0
    else
      var before := es[..|es| - 1];
      Begun(before) + if es[|es| - 1].Begin? && !Stopped(before) then 1 else 0
  }

  /** Whose release callback has run; before its request was let in nobody has it. */
  function Released(es: seq<Event>): set<nat> {
    if es == [] then {}
    else
      var before, last := es[..|es| - 1], es[|es| - 1];
      Released(before) + if last.Release? && last.ticket < Begun(before) then {last.ticket} else {}
  }

  /** How many run. */
  function Running(es: seq<Event>): int {
    Begun(es) - |Released(es)|
  }

  datatype Fate = Absent | Waiting | Succeeded | TimedOut

  /** What a call does to a waiter: it succeeds when nobody runs, unless its timer comes first. */
  function FateAfter(fate: Fate, e: Event, w: nat, running: int, runningAfter: int): Fate {
    match fate
    case Absent => if e == Await(w) then (if running == 0 then Succeeded else Waiting) else Absent
    case Waiting => if e == Expire(w) then TimedOut else if runningAfter == 0 then Succeeded else Waiting
    case Succeeded => Succeeded
    case TimedOut => TimedOut
  }

  function FateOf(es: seq<Event>, w: nat): Fate {
    if es == [] then Absent
    else
      var before := es[..|es| - 1];
      FateAfter(FateOf(before, w), es[|es| - 1], w, Running(before), Running(es))
  }

  lemma {:induction false} ApplyAllLast(t: Tracker, es: seq<Event>)
    requires es != []
    ensures ApplyAll(t, es) == Apply(ApplyAll(t, es[..|es| - 1]), es[|es| - 1])
    decreases |es|
  {
    if |es| > 1 {
      ApplyAllLast(Apply(t, es[0]), es[1..]);
      assert es[1..][..|es| - 2] == es[..|es| - 1][1..];
    }
  }

  lemma ListsGrow(es: seq<Event>, e: Event, w: nat)
    ensures Begun(es + [e]) == Begun(es) + if e.Begin? && !Stopped(es) then 1 else 0
    ensures Released(es + [e]) == Released(es) + if e.Release? && e.ticket < Begun(es) then {e.ticket} else {}
    ensures Stopped(es + [e]) <==> Stopped(es) || e.StartShutdown?
    ensures FateOf(es + [e], w) == FateAfter(FateOf(es, w), e, w, Running(es), Running(es + [e]))
  {
    assert (es + [e])[..|es|] == es;
  }

  /** The tracker holds n requests let in, of which these were released. */
  ghost predicate Holds(t: Tracker, n: nat, released: set<nat>, stopped: bool) {
    && t.active == n - |released|
    && t.issued == n
    && t.shuttingDown == stopped
    && (forall k :: k in released ==> k < n)
    && (forall k :: k in t.outstanding ==> k < n && k !in released)
    && (forall k :: 0 <= k < n && k !in released ==> k in t.outstanding)
  }

  lemma OneMore(s: set<nat>, k: nat)
    ensures |s + {k}| == |s| + if k in s then 0 else 1
  {
    if k in s {
      assert s + {k} == s;
    }
  }

  lemma StepHolds(t: Tracker, n: nat, released: set<nat>, stopped: bool, e: Event)
    requires Holds(t, n, released, stopped)
    ensures Holds(Apply(t, e), n + if e.Begin? && !stopped then 1 else 0,
                  released + if e.Release? && e.ticket < n then {e.ticket} else {}, stopped || e.StartShutdown?)
  {
    if e.Release? && e.ticket < n {
      OneMore(released, e.ticket);
    } else {
      assert released + {} == released;
    }
  }

  /** Waiter `w` is where its fate puts it. */
  predicate Waits(t: Tracker, w: nat, fate: Fate) {
    && (w in t.waiters <==> fate.Waiting?)
    && (w in t.settled && t.settled[w] <==> fate.Succeeded?)
    && (w in t.settled && !t.settled[w] <==> fate.TimedOut?)
  }

  /** The part of the tracker's invariant that a wait needs. */
  predicate Tidy(t: Tracker) {
    && 0 <= t.active && (t.active == 0 ==> t.waiters == {} && t.outstanding == {})
    && t.waiters !! t.settled.Keys
  }

  lemma StepWaits(t: Tracker, w: nat, fate: Fate, e: Event)
    requires Tidy(t) && Waits(t, w, fate)
    ensures Waits(Apply(t, e), w, FateAfter(fate, e, w, t.active, Apply(t, e).active))
  {}

  lemma OkIsTidy(t: Tracker)
    requires TrackerOk(t)
    ensures Tidy(t)
  {}

  /** The tracker holds exactly what the list says. */
  ghost predicate Records(t: Tracker, es: seq<Event>, w: nat) {
    Holds(t, Begun(es), Released(es), Stopped(es)) && Waits(t, w, FateOf(es, w))
  }

  lemma StepHoldsLists(t: Tracker, es: seq<Event>, e: Event)
    requires Holds(t, Begun(es), Released(es), Stopped(es))
    ensures Holds(Apply(t, e), Begun(es + [e]), Released(es + [e]), Stopped(es + [e]))
    ensures t.active == Running(es) && Apply(t, e).active == Running(es + [e])
  {
    ListsGrow(es, e, 0);
    StepHolds(t, Begun(es), Released(es), Stopped(es), e);
  }

  lemma StepWaitsLists(t: Tracker, es: seq<Event>, e: Event, w: nat)
    requires Tidy(t) && Waits(t, w, FateOf(es, w))
    requires t.active == Running(es) && Apply(t, e).active == Running(es + [e])
    ensures Waits(Apply(t, e), w, FateOf(es + [e], w))
  {
    ListsGrow(es, e, w);
    StepWaits(t, w, FateOf(es, w), e);
  }

  lemma StepRecords(t: Tracker, es: seq<Event>, e: Event, w: nat)
    requires Tidy(t) && Records(t, es, w)
    ensures Records(Apply(t, e), es + [e], w)
  {
    StepHoldsLists(t, es, e);
    StepWaitsLists(t, es, e, w);
  }

  /**
   * After any calls on a new tracker, the counter is the number of requests let in before shutdown
   * minus the number of different ones released since, and every waiter has the fate it is due.
   */
  lemma {:induction false} TrackerCounts(es: seq<Event>, w: nat)
    ensures var t := ApplyAll(IDLE, es);
      && TrackerOk(t) && Records(t, es, w)
      && t.active == Begun(es) - |Released(es)|
    decreases |es|
  {
    if es != [] {
      var before, last := es[..|es| - 1], es[|es| - 1];
      TrackerCounts(before, w);
      ApplyAllLast(IDLE, es);
      EventKeepsTracker(ApplyAll(IDLE, before), last);
      OkIsTidy(ApplyAll(IDLE, before));
      StepRecords(ApplyAll(IDLE, before), before, last, w);
      assert es == before + [last];
    }
  }

  lemma ApplyAllAppend(t: Tracker, a: seq<Event>, b: seq<Event>)
    ensures ApplyAll(t, a + b) == ApplyAll(ApplyAll(t, a), b)
    decreases |a|
  {
    if a == [] {
      assert a + b == b;
    } else {
      assert (a + b)[1..] == a[1..] + b;
      ApplyAllAppend(Apply(t, a[0]), a[1..], b);
    }
  }

  lemma {:induction false} BeginsEnd(a: seq<Event>, b: seq<Event>)
    requires Stopped(a)
    ensures Begun(a + b) == Begun(a)
    decreases |b|
  {
    if b == [] {
      assert a + b == a;
    } else {
      var front := b[..|b| - 1];
      assert (a + b)[..|a + b| - 1] == a + front;
      BeginsEnd(a, front);
    }
  }

  /**
   * A drain asked for after shutdown started, once it has succeeded, means that every request ever let
   * in has been released, then and from then on.
   */
  lemma DrainedMeansReleased(a: seq<Event>, b: seq<Event>, w: nat)
    requires Stopped(a) && FateOf(a, w).Absent? && FateOf(a + b, w).Succeeded?
    ensures forall k :: 0 <= k < Begun(a + b) ==> k in Released(a + b)
    ensures Begun(a + b) == Begun(a)
  {
    var t, u := ApplyAll(IDLE, a), ApplyAll(IDLE, a + b);
    TrackerCounts(a, w);
    TrackerCounts(a + b, w);
    ApplyAllAppend(IDLE, a, b);
    DrainIsFinal(t, b, w);
    assert u.outstanding == {};
    forall k: nat | k < Begun(a + b)
      ensures k in Released(a + b)
    {
      assert k !in u.outstanding;
    }
    BeginsEnd(a, b);
  }
}
