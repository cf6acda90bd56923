/** How much a subject can get through. */
module BurstBound {
  import opened Arithmetic
  import opened RateLimitModel
  import opened LimiterRefinement

  function Within(d: Decision, at: int, from: int, to: int): nat {
    if d.allowed && from <= at < to then 1 else 0
  }

  /** Requests of `subject` admitted in [from, to). */
  function Admitted(l: Limits, entries: map<string, Entry>, trace: seq<Arrival>, subject: string,
                    from: int, to: int): nat
    decreases |trace|
  {
    if trace == [] then 0
    else
      var a := trace[0];
      var (next, d) := Consume(l, entries, a.subject, a.at);
      (if a.subject == subject then Within(d, a.at, from, to) else 0) +
      Admitted(l, next, trace[1..], subject, from, to)
  }

  /** The same on Redis. */
  function RedisAdmitted(l: Limits, store: map<string, Counter>, trace: seq<Arrival>, lingers: bool, subject: string,
                         from: int, to: int): nat
    decreases |trace|
  {
    if trace == [] then 0
    else
      var a := trace[0];
      var (next, d) := RedisConsume(l, store, a.subject, a.at, lingers);
      (if a.subject == subject then Within(d, a.at, from, to) else 0) +
      RedisAdmitted(l, next, trace[1..], lingers, subject, from, to)
  }

  /**
   * What is still open to the subject in an interval of `k` windows, when `n` windows have begun in
   * it: the windows to come, and the rest of the one it is in.
   */
  function Allowance(l: Limits, store: map<string, Counter>, subject: string, n: nat, k: nat): int {
    (k - n) * l.maxRequests +
    if subject in store then l.maxRequests - Min(store[subject].count, l.maxRequests) else 0
  }

  /** The n-th window of the interval cannot end before from + n windows. */
  predicate Placed(l: Limits, store: map<string, Counter>, subject: string, from: int, n: nat) {
    && (subject in store ==> store[subject].count >= 1 && store[subject].expireAt.Some?)
    && (n >= 1 ==> subject in store && store[subject].expireAt.value >= from + n * l.windowMs)
  }

  lemma OneMoreWindow(l: Limits, n: nat, k: nat)
    ensures (k - n) * l.maxRequests == (k - (n + 1)) * l.maxRequests + l.maxRequests
    ensures (n + 1) * l.windowMs == n * l.windowMs + l.windowMs
  {}

  /** How many windows of the interval have begun after this request. */
  function Begun(store: map<string, Counter>, subject: string, at: int, lingers: bool, n: nat): nat {
    if LiveCounter(store, subject, at, lingers) then n else n + 1
  }

  /** A request inside the interval is paid for out of the allowance. */
  lemma RequestUsesAllowance(l: Limits, store: map<string, Counter>, subject: string, at: int, lingers: bool,
                             from: int, k: nat, n: nat)
    requires ValidLimits(l) && n <= k && Placed(l, store, subject, from, n)
    requires from <= at < from + k * l.windowMs
    ensures var (next, d) := RedisConsume(l, store, subject, at, lingers);
      var m := Begun(store, subject, at, lingers, n);
      && m <= k && Placed(l, next, subject, from, m)
      && Within(d, at, from, from + k * l.windowMs) + Allowance(l, next, subject, m, k)
           <= Allowance(l, store, subject, n, k)
  {
    OneMoreWindow(l, n, k);
    if !LiveCounter(store, subject, at, lingers) {
      assert n * l.windowMs <= at - from;
      ProductGrows(k, n, l.windowMs);
    }
  }

  lemma AllowanceIsNatural(l: Limits, store: map<string, Counter>, subject: string, n: nat, k: nat)
    requires ValidLimits(l) && n <= k
    ensures Allowance(l, store, subject, n, k) >= 0
  {
    assert (k - n) * l.maxRequests >= 0;
  }

  lemma {:induction false} NothingAfter(l: Limits, store: map<string, Counter>, trace: seq<Arrival>, lingers: bool,
                                        subject: string, from: int, to: int)
    requires Chronological(trace) && (trace != [] ==> to <= trace[0].at)
    ensures RedisAdmitted(l, store, trace, lingers, subject, from, to) == 0
    decreases |trace|
  {
    if trace != [] {
      var a := trace[0];
      NothingAfter(l, RedisConsume(l, store, a.subject, a.at, lingers).0, trace[1..], lingers, subject, from, to);
    }
  }

  lemma {:induction false} AdmittedInside(l: Limits, store: map<string, Counter>, trace: seq<Arrival>, lingers: bool,
                                          subject: string, from: int, k: nat, n: nat)
    requires ValidLimits(l) && Chronological(trace) && (trace != [] ==> from <= trace[0].at)
    requires n <= k && Placed(l, store, subject, from, n)
    ensures RedisAdmitted(l, store, trace, lingers, subject, from, from + k * l.windowMs)
         <= Allowance(l, store, subject, n, k)
    decreases |trace|
  {
    var to := from + k * l.windowMs;
    AllowanceIsNatural(l, store, subject, n, k);
    if trace != [] {
      var a := trace[0];
      var next := RedisConsume(l, store, a.subject, a.at, lingers).0;
      if to <= a.at {
        NothingAfter(l, store, trace, lingers, subject, from, to);
      } else if a.subject == subject {
        RequestUsesAllowance(l, store, subject, a.at, lingers, from, k, n);
        AdmittedInside(l, next, trace[1..], lingers, subject, from, k, Begun(store, subject, a.at, lingers, n));
      } else {
        AdmittedInside(l, next, trace[1..], lingers, subject, from, k, n);
      }
    }
  }

  lemma {:induction false} AdmittedFrom(l: Limits, store: map<string, Counter>, trace: seq<Arrival>, lingers: bool,
                                        subject: string, from: int, k: nat)
    requires ValidLimits(l) && Chronological(trace) && Placed(l, store, subject, from, 0)
    ensures RedisAdmitted(l, store, trace, lingers, subject, from, from + k * l.windowMs)
         <= (k + 1) * l.maxRequests - 1
    decreases |trace|
  {
    if trace != [] && trace[0].at < from {
      var a := trace[0];
      AdmittedFrom(l, RedisConsume(l, store, a.subject, a.at, lingers).0, trace[1..], lingers, subject, from, k);
    } else {
      AdmittedInside(l, store, trace, lingers, subject, from, k, 0);
    }
    assert k * l.maxRequests + l.maxRequests == (k + 1) * l.maxRequests;
  }

  /**
   * Any interval of k windows admits fewer than (k + 1) times the limit: k windows of its own, and
   * what is left of the one it begins in, whose first request came earlier.
   */
  lemma RedisBurstIsBounded(l: Limits, trace: seq<Arrival>, lingers: bool, subject: string, from: int, k: nat)
    requires ValidLimits(l) && Chronological(trace)
    ensures RedisAdmitted(l, map[], trace, lingers, subject, from, from + k * l.windowMs) < (k + 1) * l.maxRequests
  {
    AdmittedFrom(l, map[], trace, lingers, subject, from, k);
  }

  /** Related limiters admit alike. */
  lemma {:induction false} AdmittedAlike(l: Limits, entries: map<string, Entry>, store: map<string, Counter>, now: int,
                                         trace: seq<Arrival>, subject: string, from: int, to: int)
    requires ValidLimits(l) && Related(l, entries, store, now)
    requires Chronological(trace) && (trace != [] ==> now <= trace[0].at)
    ensures Admitted(l, entries, trace, subject, from, to) == RedisAdmitted(l, store, trace, false, subject, from, to)
    decreases |trace|
  {
    if trace != [] {
      var a := trace[0];
      LaterStillRelated(l, entries, store, now, a.at);
      StepKeepsRelated(l, entries, store, a.subject, a.at, false);
      AdmittedAlike(l, Consume(l, entries, a.subject, a.at).0, RedisConsume(l, store, a.subject, a.at, false).0,
                    a.at, trace[1..], subject, from, to);
    }
  }

  lemma AdmittedAlikeFromTheStart(l: Limits, trace: seq<Arrival>, subject: string, from: int, to: int)
    requires ValidLimits(l) && Chronological(trace)
    ensures Admitted(l, map[], trace, subject, from, to) == RedisAdmitted(l, map[], trace, false, subject, from, to)
  {
    if trace != [] {
      AdmittedAlike(l, map[], map[], trace[0].at, trace, subject, from, to);
    }
  }

  /** So the in-memory limiter keeps the same bound. */
  lemma BurstIsBounded(l: Limits, trace: seq<Arrival>, subject: string, from: int, k: nat)
    requires ValidLimits(l) && Chronological(trace)
    ensures Admitted(l, map[], trace, subject, from, from + k * l.windowMs) < (k + 1) * l.maxRequests
  {
    RedisBurstIsBounded(l, trace, false, subject, from, k);
    AdmittedAlikeFromTheStart(l, trace, subject, from, from + k * l.windowMs);
  }

  // ---- The bound is attained -----------------------------------------------------------------

  /** One request at 0, the rest of its window at 1, then a full volley at every window's start. */
  function WorstTrace(l: Limits, subject: string, k: nat): seq<Arrival>
    requires ValidLimits(l)
  {
    if k == 0 then [Arrival(subject, 0)] + Volley(subject, 1, l.maxRequests - 1)
    else WorstTrace(l, subject, k - 1) + Volley(subject, k * l.windowMs, l.maxRequests)
  }

  function Left(l: Limits, entries: map<string, Entry>, trace: seq<Arrival>): map<string, Entry>
    decreases |trace|
  {
    if trace == [] then entries else Left(l, Consume(l, entries, trace[0].subject, trace[0].at).0, trace[1..])
  }

  lemma {:induction false} AdmittedAppend(l: Limits, entries: map<string, Entry>, a: seq<Arrival>, b: seq<Arrival>,
                                          subject: string, from: int, to: int)
    ensures Admitted(l, entries, a + b, subject, from, to)
         == Admitted(l, entries, a, subject, from, to) + Admitted(l, Left(l, entries, a), b, subject, from, to)
    ensures Left(l, entries, a + b) == Left(l, Left(l, entries, a), b)
    decreases |a|
  {
    if a == [] {
      assert a + b == b;
    } else {
      assert (a + b)[1..] == a[1..] + b;
      AdmittedAppend(l, Consume(l, entries, a[0].subject, a[0].at).0, a[1..], b, subject, from, to);
    }
  }

  lemma {:induction false} VolleyFillsWindow(l: Limits, entries: map<string, Entry>, subject: string, at: int, n: nat,
                                             from: int, to: int)
    requires LiveEntry(entries, subject, at) && entries[subject].count + n <= l.maxRequests && from <= at < to
    ensures Admitted(l, entries, Volley(subject, at, n), subject, from, to) == n
    ensures Left(l, entries, Volley(subject, at, n))
         == entries[subject := Entry(entries[subject].count + n, entries[subject].resetAt)]
    decreases n
  {
    var volley := Volley(subject, at, n);
    if n == 0 {
      assert entries[subject := entries[subject]] == entries;
    } else {
      assert volley[1..] == Volley(subject, at, n - 1);
      VolleyFillsWindow(l, Consume(l, entries, subject, at).0, subject, at, n - 1, from, to);
    }
  }

  lemma FreshVolley(l: Limits, entries: map<string, Entry>, subject: string, at: int, from: int, to: int)
    requires ValidLimits(l) && !LiveEntry(entries, subject, at) && from <= at < to
    ensures Admitted(l, entries, Volley(subject, at, l.maxRequests), subject, from, to) == l.maxRequests
    ensures Left(l, entries, Volley(subject, at, l.maxRequests))
         == entries[subject := Entry(l.maxRequests, at + l.windowMs)]
  {
    var volley := Volley(subject, at, l.maxRequests);
    assert volley[1..] == Volley(subject, at, l.maxRequests - 1);
    VolleyFillsWindow(l, Consume(l, entries, subject, at).0, subject, at, l.maxRequests - 1, from, to);
  }

  lemma {:induction false} WorstTraceAdmits(l: Limits, subject: string, k: nat, to: int)
    requires ValidLimits(l) && l.windowMs >= 2 && k * l.windowMs < to && 2 <= to
    ensures Admitted(l, map[], WorstTrace(l, subject, k), subject, 1, to) == (k + 1) * l.maxRequests - 1
    ensures Left(l, map[], WorstTrace(l, subject, k)) == map[subject := Entry(l.maxRequests, (k + 1) * l.windowMs)]
  {
    if k == 0 {
      var first := Consume(l, map[], subject, 0).0;
      VolleyFillsWindow(l, first, subject, 1, l.maxRequests - 1, 1, to);
      assert WorstTrace(l, subject, 0)[1..] == Volley(subject, 1, l.maxRequests - 1);
    } else {
      assert k * l.windowMs == (k - 1) * l.windowMs + l.windowMs && (k + 1) * l.windowMs == k * l.windowMs + l.windowMs;
      assert (k + 1) * l.maxRequests == k * l.maxRequests + l.maxRequests;
      ProductGrows(1, k, l.windowMs);
      WorstTraceAdmits(l, subject, k - 1, to);
      var before := WorstTrace(l, subject, k - 1);
      AdmittedAppend(l, map[], before, Volley(subject, k * l.windowMs, l.maxRequests), subject, 1, to);
      FreshVolley(l, Left(l, map[], before), subject, k * l.windowMs, 1, to);
    }
  }

  lemma {:induction false} WorstTraceIsChronological(l: Limits, subject: string, k: nat)
    requires ValidLimits(l) && l.windowMs >= 2
    ensures Chronological(WorstTrace(l, subject, k))
    ensures forall a :: a in WorstTrace(l, subject, k) ==> a.at <= k * l.windowMs + 1
    ensures k >= 1 ==> forall a :: a in WorstTrace(l, subject, k) ==> a.at <= k * l.windowMs
  {
    if k > 0 {
      WorstTraceIsChronological(l, subject, k - 1);
      assert k * l.windowMs == (k - 1) * l.windowMs + l.windowMs;
      var before, volley := WorstTrace(l, subject, k - 1), Volley(subject, k * l.windowMs, l.maxRequests);
      var all := before + volley;
      forall i, j | 0 <= i <= j < |all|
        ensures all[i].at <= all[j].at
      {
        if i < |before| {
          assert before[i] in before;
        }
      }
    }
  }

  /** The bound cannot be lowered: with windows of at least 2 ms this trace attains it, whatever k is. */
  lemma BurstBoundIsAttained(l: Limits, subject: string, k: nat)
    requires ValidLimits(l) && l.windowMs >= 2 && k >= 1
    ensures Chronological(WorstTrace(l, subject, k))
    ensures Admitted(l, map[], WorstTrace(l, subject, k), subject, 1, 1 + k * l.windowMs)
         == (k + 1) * l.maxRequests - 1
    ensures RedisAdmitted(l, map[], WorstTrace(l, subject, k), false, subject, 1, 1 + k * l.windowMs)
         == (k + 1) * l.maxRequests - 1
  {
    ProductGrows(1, k, l.windowMs);
    WorstTraceIsChronological(l, subject, k);
    WorstTraceAdmits(l, subject, k, 1 + k * l.windowMs);
    AdmittedAlikeFromTheStart(l, WorstTrace(l, subject, k), subject, 1, 1 + k * l.windowMs);
  }

  /**
   * A rejected caller that waits as told, and is then the first to come, is admitted; and it is told
   * the least number of whole seconds, though at least one.
   */
  lemma WaitingIsEnough(l: Limits, entries: map<string, Entry>, subject: string, now: int)
    requires !Consume(l, entries, subject, now).1.allowed
    ensures var (next, d) := Consume(l, entries, subject, now);
      && now + 1000 * d.retryAfterSeconds >= next[subject].resetAt
      && Consume(l, next, subject, now + 1000 * d.retryAfterSeconds).1.allowed
      && 1 <= d.retryAfterSeconds
      && (1 < d.retryAfterSeconds ==> now + 1000 * (d.retryAfterSeconds - 1) < next[subject].resetAt)
  {}
}
