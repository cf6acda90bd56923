/** The request tracker as a value, and every sequence of calls on it. */
module TrackerModel {

  /**
   * `active` is the counter the code keeps. `outstanding` holds the release callbacks that have not
   * run; `waiters` the drains still waited for; `settled` how the others ended.
   */
  datatype Tracker = Tracker(
    active: int,
    shuttingDown: bool,
    outstanding: set<nat>,
    issued: nat,
    waiters: set<nat>,
    settled: map<nat, bool>)

  const IDLE := Tracker(0, false, {}, 0, {}, map[])

  datatype Event =
    | Begin
    | Release(ticket: nat)
    | StartShutdown
    | Await(waiter: nat)
    | Expire(waiter: nat)

  function Settle(settled: map<nat, bool>, waiters: set<nat>, drained: bool): map<nat, bool> {
    settled + map w | w in waiters :: drained
  }

  function Apply(t: Tracker, e: Event): Tracker {
    match e
    case Begin =>
      if t.shuttingDown then t
      else t.(active := t.active + 1, outstanding := t.outstanding + {t.issued}, issued := t.issued + 1)
    case Release(ticket) =>
      if ticket !in t.outstanding then t
      else
        var u := t.(active := t.active - 1, outstanding := t.outstanding - {ticket});
        if u.active == 0 then u.(waiters := {}, settled := Settle(u.settled, u.waiters, true)) else u
    case StartShutdown => t.(shuttingDown := true)
    case Await(w) =>
      if w in t.waiters || w in t.settled then t
      else if t.active == 0 then t.(settled := t.settled[w := true])
      else t.(waiters := t.waiters + {w})
    case Expire(w) =>
      if w !in t.waiters then t
      else t.(waiters := t.waiters - {w}, settled := t.settled[w := false])
  }

  ghost predicate TrackerOk(t: Tracker) {
    && t.active == |t.outstanding|
    && (forall i :: i in t.outstanding ==> i < t.issued)
    && (t.active == 0 ==> t.waiters == {})
    && t.waiters !! t.settled.Keys
  }

  lemma EventKeepsTracker(t: Tracker, e: Event)
    requires TrackerOk(t)
    ensures TrackerOk(Apply(t, e))
  {
    var u := Apply(t, e);
    if e.Begin? && !t.shuttingDown {
      assert u.outstanding - {t.issued} == t.outstanding;
    } else if e.Release? && e.ticket in t.outstanding && u.active == 0 {
      assert u.outstanding == t.outstanding - {e.ticket};
    }
  }

  function ApplyAll(t: Tracker, es: seq<Event>): Tracker
    decreases |es|
  {
    if es == [] then t else ApplyAll(Apply(t, es[0]), es[1..])
  }

  predicate Drained(t: Tracker, w: nat) {
    w in t.settled && t.settled[w]
  }

  /** Drain `w` has not succeeded while somebody was running. */
  predicate HonestDrain(t: Tracker, w: nat) {
    Drained(t, w) ==> t.active == 0
  }

  lemma EventAfterShutdown(t: Tracker, e: Event, w: nat)
    requires TrackerOk(t) && t.shuttingDown
    ensures var u := Apply(t, e);
      && u.shuttingDown && u.outstanding <= t.outstanding && u.active <= t.active
      && (HonestDrain(t, w) ==> HonestDrain(u, w))
  {
    EventKeepsTracker(t, e);
    if t.active == 0 {
      assert t.outstanding == {};
    }
  }

  /**
   * The counter is always the number of begun and unreleased requests. Once shutdown has started no
   * request joins them; and a drain that succeeds after that finds, and leaves, nobody running.
   */
  lemma {:induction false} DrainIsFinal(t: Tracker, es: seq<Event>, w: nat)
    requires TrackerOk(t)
    ensures TrackerOk(ApplyAll(t, es))
    ensures t.shuttingDown ==>
      var u := ApplyAll(t, es);
      && u.shuttingDown && u.outstanding <= t.outstanding && u.active <= t.active
      && (HonestDrain(t, w) ==> HonestDrain(u, w))
    decreases |es|
  {
    if es != [] {
      EventKeepsTracker(t, es[0]);
      if t.shuttingDown {
        EventAfterShutdown(t, es[0], w);
      }
      DrainIsFinal(Apply(t, es[0]), es[1..], w);
    }
  }

  /** Waiter `w` waits while somebody runs, and has succeeded once nobody does. */
  predicate WaitOk(t: Tracker, w: nat) {
    if t.active == 0 then Drained(t, w) else w in t.waiters && w !in t.settled
  }

  /** A request that leaves is gone, and the last one to leave ends the wait. */
  lemma ReleaseKeepsWait(t: Tracker, ticket: nat, w: nat)
    requires TrackerOk(t) && WaitOk(t, w)
    ensures var u := Apply(t, Release(ticket));
      && TrackerOk(u) && WaitOk(u, w) && u.shuttingDown == t.shuttingDown
      && u.outstanding == t.outstanding - {ticket}
  {
    EventKeepsTracker(t, Release(ticket));
  }

  lemma ReleaseTakesOne(t: Tracker, ticket: nat)
    requires TrackerOk(t)
    ensures var u := Apply(t, Release(ticket));
      && TrackerOk(u) && u.shuttingDown == t.shuttingDown
      && u.outstanding == t.outstanding - {ticket}
  {
    EventKeepsTracker(t, Release(ticket));
  }
}

module Lifecycle {
  import opened Arithmetic
  import opened Domain
  import opened RetryPolicy
  import opened TrackerModel

  class InFlightRequestTracker {
    var active: int
    var shuttingDown: bool
    var outstanding: set<nat>
    var issued: nat
    var drainWaiters: set<nat>
    var settled: map<nat, bool>

    ghost function Model(): Tracker
      reads this
    {
      Tracker(active, shuttingDown, outstanding, issued, drainWaiters, settled)
    }

    constructor ()
      ensures Model() == IDLE
    {
      active, shuttingDown, outstanding, issued := 0, false, {}, 0;
      drainWaiters, settled := {}, map[];
    }

    /** `None` once shutting down; otherwise the ticket that its release callback holds. */
    method Begin() returns (ticket: Option<nat>)
      modifies this
      ensures Model() == Apply(old(Model()), Event.Begin)
      ensures ticket == if old(shuttingDown) then None else Some(old(issued))
      ensures ticket.None? ==> old(shuttingDown) && Model() == old(Model())
      ensures ticket.Some? ==> active == old(active) + 1 && ticket.value in outstanding
      ensures ticket.Some? && TrackerOk(old(Model())) ==> ticket.value !in old(outstanding)
    {
      if shuttingDown {
        return None;
      }
      active := active + 1;
      ticket := Some(issued);
      outstanding, issued := outstanding + {issued}, issued + 1;
    }

    /** The release callback; a second call does nothing. */
    method Release(ticket: nat)
      modifies this
      ensures Model() == Apply(old(Model()), Event.Release(ticket))
    {
      if ticket !in outstanding {
        return;
      }
      outstanding := outstanding - {ticket};
      active := active - 1;
      if active == 0 {
        var toWake := drainWaiters;
        while toWake != {}
          modifies `settled, `drainWaiters
          invariant toWake <= old(drainWaiters)
          invariant drainWaiters == toWake
          invariant settled == Settle(old(settled), old(drainWaiters) - toWake, true)
        {
          var w :| w in toWake;
          settled := settled[w := true];
          drainWaiters := drainWaiters - {w};
          toWake := toWake - {w};
        }
        drainWaiters := {};
        assert old(drainWaiters) - {} == old(drainWaiters);
      }
    }

    method StartShutdown()
      modifies this
      ensures Model() == Apply(old(Model()), Event.StartShutdown)
    {
      shuttingDown := true;
    }

    method WaitForDrain(waiter: nat)
      requires waiter !in drainWaiters && waiter !in settled
      modifies this
      ensures Model() == Apply(old(Model()), Await(waiter))
    {
      if active == 0 {
        settled := settled[waiter := true];
      } else {
        drainWaiters := drainWaiters + {waiter};
      }
    }

    /** The waiter's timer fires. */
    method Expire(waiter: nat)
      modifies this
      ensures Model() == Apply(old(Model()), Event.Expire(waiter))
    {
      if waiter in drainWaiters {
        drainWaiters := drainWaiters - {waiter};
        settled := settled[waiter := false];
      }
    }
  }

  /** A request that leaves, and when. */
  datatype Departure = Departure(ticket: nat, at: int)

  predicate InOrder(ds: seq<Departure>, i: nat, j: nat)
    requires i < |ds| && j < |ds|
  {
    ds[i].at <= ds[j].at
  }

  ghost predicate Chronological(ds: seq<Departure>, from: int) {
    && (ds != [] ==> from <= ds[0].at)
    && forall i: nat, j: nat :: i <= j < |ds| ==> InOrder(ds, i, j)
  }

  /** Timer and last departure may fall in the same millisecond; `timerWins` says which comes first. */
  predicate InTime(at: int, deadline: int, timerWins: bool) {
    at < deadline || (at == deadline && !timerWins)
  }

  predicate LeavesInTime(ds: seq<Departure>, ticket: nat, deadline: int, timerWins: bool) {
    exists i :: 0 <= i < |ds| && ds[i].ticket == ticket && InTime(ds[i].at, deadline, timerWins)
  }

  predicate AllLeaveInTime(tickets: set<nat>, ds: seq<Departure>, deadline: int, timerWins: bool) {
    forall k :: k in tickets ==> LeavesInTime(ds, k, deadline, timerWins)
  }

  /** Who has not left by this time. */
  function StillThere(tickets: set<nat>, ds: seq<Departure>, time: int): set<nat> {
    set k | k in tickets && !LeavesInTime(ds, k, time, false)
  }

  /** Who is left after the first n departures. */
  function Remaining(tickets: set<nat>, ds: seq<Departure>, n: nat): set<nat>
    requires n <= |ds|
  {
    if n == 0 then tickets else Remaining(tickets, ds, n - 1) - {ds[n - 1].ticket}
  }

  lemma {:induction false} RemainingAt(tickets: set<nat>, ds: seq<Departure>, n: nat, k: nat)
    requires n <= |ds|
    ensures k in Remaining(tickets, ds, n) <==> k in tickets && forall j :: 0 <= j < n ==> ds[j].ticket != k
  {
    if n > 0 {
      RemainingAt(tickets, ds, n - 1, k);
    }
  }

  lemma {:induction false} RemainingShrinks(tickets: set<nat>, ds: seq<Departure>, m: nat, n: nat)
    requires m <= n <= |ds|
    ensures Remaining(tickets, ds, n) <= Remaining(tickets, ds, m)
  {
    if m < n {
      RemainingShrinks(tickets, ds, m, n - 1);
    }
  }

  /** What the departures from..end make of the tracker. */
  function Leaving(t: Tracker, ds: seq<Departure>, from: nat, end: nat): Tracker
    requires from <= end <= |ds|
    decreases end
  {
    if from == end then t else Apply(Leaving(t, ds, from, end - 1), Event.Release(ds[end - 1].ticket))
  }

  lemma {:induction false} LeavingLeaves(t: Tracker, tickets: set<nat>, ds: seq<Departure>, from: nat, end: nat)
    requires from <= end <= |ds| && TrackerOk(t) && t.outstanding == Remaining(tickets, ds, from)
    ensures var u := Leaving(t, ds, from, end);
      && TrackerOk(u) && u.shuttingDown == t.shuttingDown
      && u.outstanding == Remaining(tickets, ds, end)
      && (WaitOk(t, 0) ==> WaitOk(u, 0))
    decreases end
  {
    if from < end {
      LeavingLeaves(t, tickets, ds, from, end - 1);
      var u := Leaving(t, ds, from, end - 1);
      ReleaseTakesOne(u, ds[end - 1].ticket);
      if WaitOk(u, 0) {
        ReleaseKeepsWait(u, ds[end - 1].ticket, 0);
      }
    }
  }

  /** The departures up to some time are a prefix of them all. */
  lemma PrefixHasLeft(tickets: set<nat>, ds: seq<Departure>, n: nat, from: int, time: int)
    requires Chronological(ds, from) && n <= |ds|
    requires forall j :: 0 <= j < n ==> ds[j].at <= time
    requires n < |ds| ==> ds[n].at > time
    ensures Remaining(tickets, ds, n) == StillThere(tickets, ds, time)
  {
    forall k | k in tickets
      ensures k in Remaining(tickets, ds, n) <==> !LeavesInTime(ds, k, time, false)
    {
      RemainingAt(tickets, ds, n, k);
      if LeavesInTime(ds, k, time, false) {
        var i: nat :| i < |ds| && ds[i].ticket == k && InTime(ds[i].at, time, false);
        assert n <= i ==> InOrder(ds, n, i);
      }
    }
    forall k | k in Remaining(tickets, ds, n)
      ensures k in tickets
    {
      RemainingAt(tickets, ds, n, k);
    }
  }

  /** A wait that stops with nobody left, or with nobody left in time, has decided who leaves in time. */
  lemma DrainedExactly(tickets: set<nat>, ds: seq<Departure>, n: nat, from: int, deadline: int, timerWins: bool,
                       drained: bool)
    requires Chronological(ds, from) && n <= |ds|
    requires forall j :: 0 <= j < n ==> InTime(ds[j].at, deadline, timerWins)
    requires drained || n == |ds| || !InTime(ds[n].at, deadline, timerWins)
    requires drained <==> Remaining(tickets, ds, n) == {}
    ensures drained <==> AllLeaveInTime(tickets, ds, deadline, timerWins)
  {
    if drained {
      forall k | k in tickets
        ensures LeavesInTime(ds, k, deadline, timerWins)
      {
        RemainingAt(tickets, ds, n, k);
      }
    } else {
      var k :| k in Remaining(tickets, ds, n);
      RemainingAt(tickets, ds, n, k);
      forall i: nat | i < |ds| && ds[i].ticket == k
        ensures !InTime(ds[i].at, deadline, timerWins)
      {
        assert n <= i;
        assert InOrder(ds, n, i);
      }
    }
  }

  /** The departure that leaves nobody marks the instant at which all have left. */
  lemma LastOneLeaves(tickets: set<nat>, ds: seq<Departure>, n: nat, from: int)
    requires Chronological(ds, from) && 1 <= n <= |ds|
    requires Remaining(tickets, ds, n) == {} && Remaining(tickets, ds, n - 1) != {}
    ensures AllLeaveInTime(tickets, ds, ds[n - 1].at, false)
    ensures !AllLeaveInTime(tickets, ds, ds[n - 1].at - 1, false)
  {
    forall k | k in tickets
      ensures LeavesInTime(ds, k, ds[n - 1].at, false)
    {
      RemainingAt(tickets, ds, n, k);
      var i: nat :| i < n && ds[i].ticket == k;
      assert InOrder(ds, i, n - 1);
    }
    var k :| k in Remaining(tickets, ds, n - 1);
    RemainingAt(tickets, ds, n - 1, k);
    forall i: nat | i < |ds| && ds[i].ticket == k
      ensures !InTime(ds[i].at, ds[n - 1].at - 1, false)
    {
      assert InOrder(ds, n - 1, i);
    }
    assert !LeavesInTime(ds, k, ds[n - 1].at - 1, false);
  }

  /** A wait that has seen n departures in time, the last of them at `at`, and stopped as soon as it was over. */
  ghost predicate Watched(waiting: Tracker, ds: seq<Departure>, n: nat, now: int, deadline: int, timerWins: bool,
                          at: int)
  {
    && n <= |ds| && now <= at <= deadline
    && at == (if n == 0 then now else ds[n - 1].at)
    && (forall j :: 0 <= j < n ==> ds[j].at <= at && InTime(ds[j].at, deadline, timerWins))
    && (n > 0 ==> 0 !in Leaving(waiting, ds, 0, n - 1).settled)
    && (n == |ds| || !InTime(ds[n].at, deadline, timerWins) || 0 in Leaving(waiting, ds, 0, n).settled)
  }

  lemma DrainOutcome(waiting: Tracker, ds: seq<Departure>, n: nat, now: int, deadline: int, timerWins: bool, at: int)
    requires TrackerOk(waiting) && WaitOk(waiting, 0) && Chronological(ds, now)
    requires Watched(waiting, ds, n, now, deadline, timerWins, at)
    ensures var u, drained := Leaving(waiting, ds, 0, n), 0 in Leaving(waiting, ds, 0, n).settled;
      && TrackerOk(u) && WaitOk(u, 0) && u.shuttingDown == waiting.shuttingDown
      && u.outstanding == Remaining(waiting.outstanding, ds, n)
      && (drained <==> u.active == 0)
      && (drained <==> AllLeaveInTime(waiting.outstanding, ds, deadline, timerWins))
      && (drained ==> AllLeaveInTime(waiting.outstanding, ds, at, false))
      && (drained && at > now ==> !AllLeaveInTime(waiting.outstanding, ds, at - 1, false))
  {
    var u := Leaving(waiting, ds, 0, n);
    LeavingLeaves(waiting, waiting.outstanding, ds, 0, n);
    DrainedExactly(waiting.outstanding, ds, n, now, deadline, timerWins, 0 in u.settled);
    if u.active == 0 && n > 0 {
      LeavingLeaves(waiting, waiting.outstanding, ds, 0, n - 1);
      LastOneLeaves(waiting.outstanding, ds, n, now);
    }
  }

  /** How long each resource takes to stop; `None` hangs for ever. */
  datatype Resources = Resources(
    gracefulStop: Option<nat>,
    forcedStop: Option<nat>,
    redisClose: Option<nat>,
    postgresClose: Option<nat>)

  /** When each step ended, and how many requests were still running as each store began to close. */
  datatype Report = Report(
    drained: bool,
    httpStoppedAt: int,
    activeAtRedisClose: int,
    redisClosedAt: int,
    activeAtPostgresClose: int,
    postgresClosedAt: int)

  /** `safeCall`: over when the action is, or at the timeout. */
  function SafeCall(start: int, duration: Option<nat>, timeoutMs: nat): (end: int)
    ensures start <= end <= start + timeoutMs
    ensures end < start + timeoutMs ==> duration == Some(end - start)
    ensures duration.Some? ==> end <= start + duration.value
  {
    if duration.Some? && duration.value <= timeoutMs then start + duration.value else start + timeoutMs
  }

  class ShutdownPromise {
    var report: Option<Report>

    constructor ()
      ensures report == None
    {
      report := None;
    }
  }

  class GracefulShutdownCoordinator {
    const tracker: InFlightRequestTracker
    const gracePeriodMs: nat
    const resourceCloseTimeoutMs: nat
    var shutdownPromise: ShutdownPromise?

    constructor (tracker: InFlightRequestTracker, gracePeriodMs: nat, resourceCloseTimeoutMs: nat)
      requires gracePeriodMs >= 1 && resourceCloseTimeoutMs >= 1
      ensures this.tracker == tracker && this.gracePeriodMs == gracePeriodMs
      ensures this.resourceCloseTimeoutMs == resourceCloseTimeoutMs && shutdownPromise == null
    {
      this.tracker, this.gracePeriodMs := tracker, gracePeriodMs;
      this.resourceCloseTimeoutMs, shutdownPromise := resourceCloseTimeoutMs, null;
    }

    /** The first signal starts the shutdown; every other one joins it, running or over. */
    method Shutdown() returns (promise: ShutdownPromise)
      modifies this, tracker
      ensures shutdownPromise == promise
      ensures old(shutdownPromise) != null ==>
        promise == old(shutdownPromise) && tracker.Model() == old(tracker.Model())
      ensures old(shutdownPromise) == null ==>
        && fresh(promise) && promise.report == None
        && tracker.Model() == Apply(old(tracker.Model()), Event.StartShutdown)
    {
      if shutdownPromise != null {
        return shutdownPromise;
      }
      promise := new ShutdownPromise();
      shutdownPromise := promise;
      tracker.StartShutdown();
    }

    /** Further signals, while somebody awaits. */
    method Signals(n: nat)
      requires shutdownPromise != null
      modifies this, tracker
      ensures shutdownPromise == old(shutdownPromise) && tracker.Model() == old(tracker.Model())
    {
      for i := 0 to n
        invariant shutdownPromise == old(shutdownPromise) && tracker.Model() == old(tracker.Model())
      {
        var _ := Shutdown();
      }
    }

    /** One request after the other leaves. */
    method LeaveAll(departures: seq<Departure>, from: nat, end: nat)
      requires from <= end <= |departures|
      modifies tracker
      ensures tracker.Model() == Leaving(old(tracker.Model()), departures, from, end)
    {
      for i := from to end
        invariant tracker.Model() == Leaving(old(tracker.Model()), departures, from, i)
      {
        tracker.Release(departures[i].ticket);
      }
    }

    /**
     * The requests that leave up to some time, from the `from`-th departure on. `all` are those that
     * ran at the signal.
     */
    method Depart(departures: seq<Departure>, from: nat, time: int, ghost all: set<nat>, ghost now: int)
      returns (next: nat)
      requires TrackerOk(tracker.Model()) && tracker.shuttingDown && Chronological(departures, now)
      requires from <= |departures| && forall j :: 0 <= j < from ==> departures[j].at <= time
      requires tracker.outstanding == Remaining(all, departures, from)
      modifies tracker
      ensures TrackerOk(tracker.Model()) && tracker.shuttingDown
      ensures from <= next <= |departures| && forall j :: 0 <= j < next ==> departures[j].at <= time
      ensures tracker.outstanding == Remaining(all, departures, next)
      ensures tracker.outstanding == StillThere(all, departures, time)
      ensures old(tracker.active) == 0 ==> tracker.active == 0
    {
      next := from;
      while next < |departures| && departures[next].at <= time
        invariant from <= next <= |departures| && forall j :: 0 <= j < next ==> departures[j].at <= time
      {
        next := next + 1;
      }
      LeavingLeaves(tracker.Model(), all, departures, from, next);
      LeaveAll(departures, from, next);
      RemainingShrinks(all, departures, from, next);
      PrefixHasLeft(all, departures, next, now, time);
    }

    /** The departures before the timer, until the wait is over. */
    method WatchDepartures(now: int, departures: seq<Departure>, timerWins: bool) returns (at: int, next: nat)
      requires Chronological(departures, now)
      modifies tracker
      ensures Watched(old(tracker.Model()), departures, next, now, now + gracePeriodMs, timerWins, at)
      ensures tracker.Model() == Leaving(old(tracker.Model()), departures, 0, next)
    {
      var deadline := now + gracePeriodMs;
      at, next := now, 0;
      while next < |departures| && InTime(departures[next].at, deadline, timerWins) && 0 !in tracker.settled
        invariant 0 <= next <= |departures| && now <= at <= deadline
        invariant at == if next == 0 then now else departures[next - 1].at
        invariant forall j :: 0 <= j < next ==> departures[j].at <= at && InTime(departures[j].at, deadline, timerWins)
        invariant tracker.Model() == Leaving(old(tracker.Model()), departures, 0, next)
        invariant next > 0 ==> 0 !in Leaving(old(tracker.Model()), departures, 0, next - 1).settled
      {
        assert InOrder(departures, 0, next) && (next > 0 ==> InOrder(departures, next - 1, next));
        at := departures[next].at;
        tracker.Release(departures[next].ticket);
        next := next + 1;
      }
    }

    /**
     * Waits until the last request has left or the timer fires; `departures` says who leaves when, and
     * `next` how many of them the wait has seen.
     */
    method AwaitDrain(now: int, departures: seq<Departure>, timerWins: bool)
      returns (drained: bool, at: int, next: nat)
      requires TrackerOk(tracker.Model()) && tracker.shuttingDown && 0 !in tracker.drainWaiters && 0 !in tracker.settled
      requires Chronological(departures, now)
      modifies tracker
      ensures TrackerOk(tracker.Model()) && tracker.shuttingDown
      ensures next <= |departures| && forall j :: 0 <= j < next ==> departures[j].at <= at
      ensures tracker.outstanding == Remaining(old(tracker.outstanding), departures, next)
      ensures now <= at <= now + gracePeriodMs
      ensures drained <==> tracker.active == 0
      ensures drained <==> AllLeaveInTime(old(tracker.outstanding), departures, now + gracePeriodMs, timerWins)
      ensures !drained ==> at == now + gracePeriodMs
      // Not a moment later than the last one leaves.
      ensures drained ==> AllLeaveInTime(old(tracker.outstanding), departures, at, false)
      ensures drained && at > now ==> !AllLeaveInTime(old(tracker.outstanding), departures, at - 1, false)
    {
      EventKeepsTracker(tracker.Model(), Await(0));
      tracker.WaitForDrain(0);
      ghost var waiting := tracker.Model();
      at, next := WatchDepartures(now, departures, timerWins);
      DrainOutcome(waiting, departures, next, now, now + gracePeriodMs, timerWins, at);
      drained := 0 in tracker.settled;
      if !drained {
        EventKeepsTracker(tracker.Model(), Event.Expire(0));
        tracker.Expire(0);
        at := now + gracePeriodMs;
      }
    }

    /**
     * The shutdown that the first signal started at `now`, to its end. `signals` more arrive while it
     * waits for the drain.
     */
    method PerformShutdown(now: int, departures: seq<Departure>, r: Resources, timerWins: bool, signals: nat)
      returns (report: Report)
      requires shutdownPromise != null && shutdownPromise.report == None
      requires TrackerOk(tracker.Model()) && tracker.shuttingDown && 0 !in tracker.drainWaiters && 0 !in tracker.settled
      requires Chronological(departures, now)
      modifies this, tracker, shutdownPromise
      ensures shutdownPromise == old(shutdownPromise) && shutdownPromise.report == Some(report)
      ensures TrackerOk(tracker.Model()) && tracker.shuttingDown
      // Drained exactly when every request leaves within the grace period; then nobody runs at any closing.
      ensures report.drained <==>
        AllLeaveInTime(old(tracker.outstanding), departures, now + gracePeriodMs, timerWins)
      ensures report.drained ==>
        report.activeAtRedisClose == 0 && report.activeAtPostgresClose == 0 && tracker.active == 0
      // Otherwise those run who have not left by then.
      ensures report.activeAtRedisClose == |StillThere(old(tracker.outstanding), departures, report.httpStoppedAt)|
      ensures report.activeAtPostgresClose == |StillThere(old(tracker.outstanding), departures, report.redisClosedAt)|
      ensures tracker.outstanding == StillThere(old(tracker.outstanding), departures, report.postgresClosedAt)
      // HTTP first, by force if the drain failed; then Redis; then PostgreSQL.
      ensures report.drained ==> report.httpStoppedAt >= SafeCall(now, r.gracefulStop, gracePeriodMs)
      ensures report.drained && report.httpStoppedAt > now
        && report.httpStoppedAt > SafeCall(now, r.gracefulStop, gracePeriodMs)
        ==> !AllLeaveInTime(old(tracker.outstanding), departures, report.httpStoppedAt - 1, false)
      ensures !report.drained ==>
        report.httpStoppedAt == SafeCall(now + gracePeriodMs, r.forcedStop, resourceCloseTimeoutMs)
      ensures report.redisClosedAt == SafeCall(report.httpStoppedAt, r.redisClose, resourceCloseTimeoutMs)
      ensures report.postgresClosedAt == SafeCall(report.redisClosedAt, r.postgresClose, resourceCloseTimeoutMs)
      // In bounded time, even if every resource hangs.
      ensures report.postgresClosedAt <= now + gracePeriodMs + 3 * resourceCloseTimeoutMs
      ensures report.drained ==> report.postgresClosedAt <= now + gracePeriodMs + 2 * resourceCloseTimeoutMs
    {
      ghost var all := tracker.outstanding;
      var gracefulEnd := SafeCall(now, r.gracefulStop, gracePeriodMs);
      Signals(signals);
      var drained, at, next := AwaitDrain(now, departures, timerWins);
      var stopped := if drained then Max(at, gracefulEnd)
                     else SafeCall(at, r.forcedStop, resourceCloseTimeoutMs);
      next := Depart(departures, next, stopped, all, now);
      var activeAtRedis := tracker.active;
      var redis := SafeCall(stopped, r.redisClose, resourceCloseTimeoutMs);
      next := Depart(departures, next, redis, all, now);
      var activeAtPostgres := tracker.active;
      var postgres := SafeCall(redis, r.postgresClose, resourceCloseTimeoutMs);
      next := Depart(departures, next, postgres, all, now);
      report := Report(drained, stopped, activeAtRedis, redis, activeAtPostgres, postgres);
      shutdownPromise.report := Some(report);
    }
  }

  // ---- Requests that fit the window ----------------------------------------------------------

  /** Every one of these requests leaves within the validated provider window of its beginning. */
  ghost predicate AllFitWindow(c: TimingConfig, tickets: set<nat>, began: map<nat, int>, ds: seq<Departure>)
    requires c.retry.maxAttempts >= 1
  {
    forall k :: k in tickets ==>
      k in began && exists i :: 0 <= i < |ds| && ds[i].ticket == k && ds[i].at <= began[k] + ExecutionWindow(c)
  }

  /** The tie: the timer goes first, the grace period is no longer than the window, and somebody just began. */
  ghost predicate CanTie(c: TimingConfig, gracePeriodMs: int, tickets: set<nat>, began: map<nat, int>, now: int,
                         timerWins: bool)
    requires c.retry.maxAttempts >= 1
    requires forall k :: k in tickets ==> k in began
  {
    && timerWins && ExecutionWindow(c) == gracePeriodMs
    && (exists k :: k in tickets && began[k] == now)
    && (forall k :: k in tickets ==> now <= began[k] + ExecutionWindow(c))
  }

  lemma FittingRequestsLeaveInTime(c: TimingConfig, gracePeriodMs: int, tickets: set<nat>, began: map<nat, int>,
                                   now: int, timerWins: bool, ds: seq<Departure>)
    requires LeaseCoversExecution(c) && ExecutionWindow(c) <= gracePeriodMs
    requires forall k :: k in tickets ==> k in began && began[k] <= now
    requires !CanTie(c, gracePeriodMs, tickets, began, now, timerWins)
    requires Chronological(ds, now) && AllFitWindow(c, tickets, began, ds)
    ensures AllLeaveInTime(tickets, ds, now + gracePeriodMs, timerWins)
  {
    forall k | k in tickets
      ensures now <= began[k] + ExecutionWindow(c)
    {
      var i: nat :| i < |ds| && ds[i].ticket == k && ds[i].at <= began[k] + ExecutionWindow(c);
      assert InOrder(ds, 0, i);
    }
    forall k | k in tickets
      ensures LeavesInTime(ds, k, now + gracePeriodMs, timerWins)
    {
      var i :| 0 <= i < |ds| && ds[i].ticket == k && ds[i].at <= began[k] + ExecutionWindow(c);
      assert InTime(ds[i].at, now + gracePeriodMs, timerWins);
    }
  }

  lemma Listed(tickets: set<nat>) returns (list: seq<nat>)
    ensures forall k :: k in list <==> k in tickets
  {
    list := [];
    var rest := tickets;
    while rest != {}
      invariant rest <= tickets
      invariant forall k :: k in list <==> k in tickets && k !in rest
    {
      var k :| k in rest;
      list, rest := list + [k], rest - {k};
    }
  }

  /** Everybody leaves at once, except for one who uses the window up. */
  lemma TieIsForced(c: TimingConfig, gracePeriodMs: int, tickets: set<nat>, began: map<nat, int>, now: int)
    returns (ds: seq<Departure>)
    requires LeaseCoversExecution(c)
    requires forall k :: k in tickets ==> k in began && began[k] <= now
    requires CanTie(c, gracePeriodMs, tickets, began, now, true)
    ensures Chronological(ds, now) && AllFitWindow(c, tickets, began, ds)
    ensures !AllLeaveInTime(tickets, ds, now + gracePeriodMs, true)
  {
    WindowMonotone(c.retry, 1, c.retry.maxAttempts);
    var last :| last in tickets && began[last] == now;
    var others := Listed(tickets - {last});
    ds := seq(|others|, i requires 0 <= i < |others| => Departure(others[i], now))
      + [Departure(last, now + gracePeriodMs)];
    forall k | k in tickets
      ensures exists i :: 0 <= i < |ds| && ds[i].ticket == k && ds[i].at <= began[k] + ExecutionWindow(c)
    {
      if k == last {
        assert ds[|others|].ticket == k;
      } else {
        assert k in others;
        var i :| 0 <= i < |others| && others[i] == k;
        assert ds[i].ticket == k;
      }
    }
    assert !LeavesInTime(ds, last, now + gracePeriodMs, true);
  }

  /**
   * Under a grace period that startup accepts, requests that fit the window are never forced to stop,
   * whenever they leave, if and only if they cannot tie with the timer.
   */
  lemma FittingRequestsExactly(c: TimingConfig, gracePeriodMs: int, tickets: set<nat>, began: map<nat, int>,
                               now: int, timerWins: bool)
    requires LeaseCoversExecution(c) && ExecutionWindow(c) <= gracePeriodMs
    requires forall k :: k in tickets ==> k in began && began[k] <= now
    ensures !CanTie(c, gracePeriodMs, tickets, began, now, timerWins) <==>
      forall ds :: Chronological(ds, now) && AllFitWindow(c, tickets, began, ds) ==>
        AllLeaveInTime(tickets, ds, now + gracePeriodMs, timerWins)
  {
    if CanTie(c, gracePeriodMs, tickets, began, now, timerWins) {
      var ds := TieIsForced(c, gracePeriodMs, tickets, began, now);
    } else {
      forall ds | Chronological(ds, now) && AllFitWindow(c, tickets, began, ds)
        ensures AllLeaveInTime(tickets, ds, now + gracePeriodMs, timerWins)
      {
        FittingRequestsLeaveInTime(c, gracePeriodMs, tickets, began, now, timerWins, ds);
      }
    }
  }
}
