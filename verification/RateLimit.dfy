/** Fixed windows: the in-memory form, the Redis form, and what both promise. */
module RateLimitModel {
  import opened Domain

  datatype Limits = Limits(maxRequests: int, windowMs: int)

  datatype Decision = Decision(allowed: bool, retryAfterSeconds: int)

  datatype Entry = Entry(count: int, resetAt: int)

  /** A Redis counter; without an expiry it stays until it is given one. */
  datatype Counter = Counter(count: int, expireAt: Option<int>)

  datatype Arrival = Arrival(subject: string, at: int)

  const ALLOWED := Decision(true, 0)

  /** The same request n times. */
  function Volley(subject: string, at: int, n: nat): (t: seq<Arrival>)
    ensures |t| == n && forall i :: 0 <= i < n ==> t[i] == Arrival(subject, at)
  {
    seq(n, _ => Arrival(subject, at))
  }

  predicate ValidLimits(l: Limits) {
    1 <= l.maxRequests <= MAX_SAFE_INTEGER && 1 <= l.windowMs <= MAX_SAFE_INTEGER
  }

  /** `Math.max(1, Math.ceil(ms / 1000))`. */
  function RetrySeconds(ms: int): (seconds: int)
    ensures seconds >= 1 && 1000 * seconds >= ms
    ensures seconds > 1 ==> 1000 * (seconds - 1) < ms
  {
    var ceiling := (ms + 999) / 1000;
    if ceiling >= 1 then ceiling else 1
  }

  predicate LiveEntry(entries: map<string, Entry>, subject: string, now: int) {
    subject in entries && now < entries[subject].resetAt
  }

  /** The simple form. */
  function Consume(l: Limits, entries: map<string, Entry>, subject: string, now: int)
    : (map<string, Entry>, Decision)
  {
    if !LiveEntry(entries, subject, now) then
      (entries[subject := Entry(1, now + l.windowMs)], ALLOWED)
    else
      var e := entries[subject];
      if e.count >= l.maxRequests then (entries, Decision(false, RetrySeconds(e.resetAt - now)))
      else (entries[subject := Entry(e.count + 1, e.resetAt)], ALLOWED)
  }

  /** The very millisecond in which the counter expires. */
  predicate AtExpiry(store: map<string, Counter>, subject: string, now: int) {
    subject in store && store[subject].expireAt == Some(now)
  }

  /** A counter that lingers is still there in the millisecond it expires in, with no time left to live. */
  predicate LiveCounter(store: map<string, Counter>, subject: string, now: int, lingers: bool) {
    subject in store &&
    match store[subject].expireAt
    case None => true
    case Some(at) => now < at || (now == at && lingers)
  }

  /** The script: INCR, an expiry for a new counter, PTTL, and an expiry for one found without. */
  function Script(l: Limits, store: map<string, Counter>, subject: string, now: int, lingers: bool)
    : (map<string, Counter>, int, int)
  {
    var live := LiveCounter(store, subject, now, lingers);
    var count := if live then store[subject].count + 1 else 1;
    var kept := if live then store[subject].expireAt else None;
    var expireAt := if count == 1 || kept.None? then now + l.windowMs else kept.value;
    (store[subject := Counter(count, Some(expireAt))], count, expireAt - now)
  }

  function RedisConsume(l: Limits, store: map<string, Counter>, subject: string, now: int, lingers: bool)
    : (map<string, Counter>, Decision)
  {
    var (next, count, ttlMs) := Script(l, store, subject, now, lingers);
    (next, if count <= l.maxRequests then ALLOWED else Decision(false, RetrySeconds(ttlMs)))
  }
}

module RateLimiters {
  import opened Domain
  import opened RateLimitModel

  class InMemoryRateLimiter {
    const limits: Limits
    var entries: map<string, Entry>

    constructor (limits: Limits)
      ensures this.limits == limits && entries == map[]
    {
      this.limits, entries := limits, map[];
    }

    method Consume(subject: string, now: int) returns (decision: Decision)
      modifies this
      ensures (entries, decision) == RateLimitModel.Consume(limits, old(entries), subject, now)
    {
      if subject !in entries || now >= entries[subject].resetAt {
        entries := entries[subject := Entry(1, now + limits.windowMs)];
        return Decision(true, 0);
      }
      var entry := entries[subject];
      if entry.count >= limits.maxRequests {
        return Decision(false, RetrySeconds(entry.resetAt - now));
      }
      entries := entries[subject := entry.(count := entry.count + 1)];
      return Decision(true, 0);
    }
  }

  class RedisRateLimiter {
    const limits: Limits
    const lingers: bool
    var store: map<string, Counter>

    constructor (limits: Limits, lingers: bool)
      requires ValidLimits(limits)
      ensures this.limits == limits && this.lingers == lingers && store == map[]
    {
      this.limits, this.lingers, store := limits, lingers, map[];
    }

    /** The Lua script, command by command; a key that has expired is gone before the first of them. */
    method Eval(subject: string, now: int) returns (count: int, ttl: int)
      modifies this
      ensures (store, count, ttl) == Script(limits, old(store), subject, now, lingers)
    {
      if subject in store && store[subject].expireAt.Some?
         && (now > store[subject].expireAt.value || (now == store[subject].expireAt.value && !lingers)) {
        store := store - {subject};
      }
      count := if subject in store then store[subject].count + 1 else 1;
      store := store[subject := Counter(count, if subject in store then store[subject].expireAt else None)];
      if count == 1 {
        store := store[subject := Counter(count, Some(now + limits.windowMs))];
      }
      ttl := if store[subject].expireAt.Some? then store[subject].expireAt.value - now else -1;
      if ttl < 0 {
        store := store[subject := Counter(count, Some(now + limits.windowMs))];
        ttl := limits.windowMs;
      }
      assert store == old(store)[subject := store[subject]];
    }

    /**
     * `reply` is what comes back over the wire: nothing on a failure or a timeout (the script may
     * still have run), otherwise the script's own two numbers. The limiter fails open.
     */
    method Consume(subject: string, now: int, executed: bool, answered: bool) returns (decision: Decision)
      modifies this
      ensures store == if executed then RedisConsume(limits, old(store), subject, now, lingers).0 else old(store)
      ensures decision ==
        if executed && answered then RedisConsume(limits, old(store), subject, now, lingers).1 else ALLOWED
    {
      if !executed {
        return Decision(true, 0);
      }
      var count, ttlMs := Eval(subject, now);
      if !answered {
        return Decision(true, 0);
      }
      if count <= limits.maxRequests {
        return Decision(true, 0);
      }
      return Decision(false, RetrySeconds(ttlMs));
    }
  }
}

/** Redis keeps counting past the limit, and nobody can tell. */
module LimiterRefinement {
  import opened Arithmetic
  import opened Domain
  import opened RateLimitModel

  /** At `now` both stores have the same windows, and counts that are equal up to the limit. */
  predicate SameWindow(l: Limits, entries: map<string, Entry>, store: map<string, Counter>, subject: string, now: int) {
    && (LiveEntry(entries, subject, now) <==> LiveCounter(store, subject, now, false))
    && (LiveEntry(entries, subject, now) ==>
          && store[subject].expireAt == Some(entries[subject].resetAt)
          && store[subject].count >= 1
          && entries[subject].count == Min(store[subject].count, l.maxRequests))
  }

  ghost predicate Related(l: Limits, entries: map<string, Entry>, store: map<string, Counter>, now: int) {
    forall subject :: SameWindow(l, entries, store, subject, now)
  }

  function Decisions(l: Limits, entries: map<string, Entry>, trace: seq<Arrival>): seq<Decision>
    decreases |trace|
  {
    if trace == [] then []
    else
      var (next, d) := Consume(l, entries, trace[0].subject, trace[0].at);
      [d] + Decisions(l, next, trace[1..])
  }

  function RedisDecisions(l: Limits, store: map<string, Counter>, trace: seq<Arrival>, lingers: bool): seq<Decision>
    decreases |trace|
  {
    if trace == [] then []
    else
      var (next, d) := RedisConsume(l, store, trace[0].subject, trace[0].at, lingers);
      [d] + RedisDecisions(l, next, trace[1..], lingers)
  }

  /** No request comes in the millisecond in which its counter expires. */
  predicate OffExpiry(l: Limits, store: map<string, Counter>, trace: seq<Arrival>, lingers: bool)
    decreases |trace|
  {
    trace != [] ==>
      && !AtExpiry(store, trace[0].subject, trace[0].at)
      && OffExpiry(l, RedisConsume(l, store, trace[0].subject, trace[0].at, lingers).0, trace[1..], lingers)
  }

  ghost predicate Chronological(trace: seq<Arrival>) {
    forall i, j :: 0 <= i <= j < |trace| ==> trace[i].at <= trace[j].at
  }

  lemma DeadStaysDead(store: map<string, Counter>, subject: string, now: int, later: int)
    requires now <= later && !LiveCounter(store, subject, now, false)
    ensures !LiveCounter(store, subject, later, false)
  {}

  lemma LaterStillRelated(l: Limits, entries: map<string, Entry>, store: map<string, Counter>, now: int, later: int)
    requires Related(l, entries, store, now) && now <= later
    ensures Related(l, entries, store, later)
  {
    forall subject
      ensures SameWindow(l, entries, store, subject, later)
    {
      assert SameWindow(l, entries, store, subject, now);
      if !LiveEntry(entries, subject, now) {
        DeadStaysDead(store, subject, now, later);
      }
    }
  }

  lemma StepKeepsRelated(l: Limits, entries: map<string, Entry>, store: map<string, Counter>, subject: string, now: int,
                         lingers: bool)
    requires ValidLimits(l) && Related(l, entries, store, now)
    requires lingers ==> !AtExpiry(store, subject, now)
    ensures Consume(l, entries, subject, now).1 == RedisConsume(l, store, subject, now, lingers).1
    ensures Related(l, Consume(l, entries, subject, now).0, RedisConsume(l, store, subject, now, lingers).0, now)
  {
    assert SameWindow(l, entries, store, subject, now);
    var e, s := Consume(l, entries, subject, now).0, RedisConsume(l, store, subject, now, lingers).0;
    forall other
      ensures SameWindow(l, e, s, other, now)
    {
      assert SameWindow(l, entries, store, other, now);
    }
  }

  /**
   * On every trace the two limiters decide alike and name the same retry time; where counters linger,
   * on every trace that keeps off the milliseconds in which they expire.
   */
  lemma {:induction false} RedisRefinesInMemory(l: Limits, entries: map<string, Entry>, store: map<string, Counter>,
                                                now: int, trace: seq<Arrival>, lingers: bool)
    requires ValidLimits(l) && Related(l, entries, store, now)
    requires Chronological(trace) && (trace != [] ==> now <= trace[0].at)
    requires lingers ==> OffExpiry(l, store, trace, lingers)
    ensures Decisions(l, entries, trace) == RedisDecisions(l, store, trace, lingers)
    decreases |trace|
  {
    if trace != [] {
      var a := trace[0];
      LaterStillRelated(l, entries, store, now, a.at);
      StepKeepsRelated(l, entries, store, a.subject, a.at, lingers);
      RedisRefinesInMemory(l, Consume(l, entries, a.subject, a.at).0,
                           RedisConsume(l, store, a.subject, a.at, lingers).0, a.at, trace[1..], lingers);
    }
  }

  /** In particular from the empty stores. */
  lemma SameFromTheStart(l: Limits, trace: seq<Arrival>, lingers: bool)
    requires ValidLimits(l) && Chronological(trace)
    requires lingers ==> OffExpiry(l, map[], trace, lingers)
    ensures Decisions(l, map[], trace) == RedisDecisions(l, map[], trace, lingers)
  {
    if trace != [] {
      RedisRefinesInMemory(l, map[], map[], trace[0].at, trace, lingers);
    }
  }

  /**
   * Whatever counter it finds, the script leaves one that expires within a window, and later than now
   * unless it is lingering at this moment: no subject is stuck.
   */
  lemma ScriptAlwaysLeavesExpiry(l: Limits, store: map<string, Counter>, subject: string, now: int, lingers: bool)
    requires ValidLimits(l)
    requires subject in store && store[subject].expireAt.Some? ==> store[subject].expireAt.value <= now + l.windowMs
    ensures var next := Script(l, store, subject, now, lingers).0;
      && subject in next && next[subject].expireAt.Some?
      && now <= next[subject].expireAt.value <= now + l.windowMs
      && (AtExpiry(next, subject, now) <==>
            lingers && AtExpiry(store, subject, now) && store[subject].count != 0)
  {}
}

/** The millisecond in which a lingering counter expires, and what a request in it leads to. */
module LingeringExpiry {
  import opened Arithmetic
  import opened RateLimitModel
  import opened LimiterRefinement

  /**
   * A lingering counter still counts for the old window, where the in-memory limiter has begun a new
   * one. The first request there is decided alike exactly if the old window is not used up.
   */
  lemma FirstRequestAtExpiry(l: Limits, entries: map<string, Entry>, store: map<string, Counter>,
                             subject: string, now: int)
    requires ValidLimits(l) && SameWindow(l, entries, store, subject, now - 1)
    requires LiveEntry(entries, subject, now - 1) && entries[subject].resetAt == now
    ensures var simple, redis := Consume(l, entries, subject, now).1, RedisConsume(l, store, subject, now, true).1;
      && simple == ALLOWED
      && (redis == simple <==> entries[subject].count < l.maxRequests)
      && (redis != simple ==> redis == Decision(false, 1))
  {}

  ghost predicate Agree(l: Limits, entries: map<string, Entry>, store: map<string, Counter>, trace: seq<Arrival>) {
    Decisions(l, entries, trace) == RedisDecisions(l, store, trace, true)
  }

  /** How much of the in-memory window is used. */
  function Used(entries: map<string, Entry>, subject: string, now: int): int {
    if LiveEntry(entries, subject, now) then entries[subject].count else 0
  }

  lemma AgreeOnHead(l: Limits, entries: map<string, Entry>, store: map<string, Counter>, trace: seq<Arrival>)
    requires trace != []
    ensures var a := trace[0];
      var (e, d) := Consume(l, entries, a.subject, a.at);
      var (s, f) := RedisConsume(l, store, a.subject, a.at, true);
      Agree(l, entries, store, trace) <==> d == f && Agree(l, e, s, trace[1..])
  {
    var a := trace[0];
    var (e, d) := Consume(l, entries, a.subject, a.at);
    var (s, f) := RedisConsume(l, store, a.subject, a.at, true);
    var simple, redis := Decisions(l, entries, trace), RedisDecisions(l, store, trace, true);
    assert simple[0] == d && simple[1..] == Decisions(l, e, trace[1..]);
    assert redis[0] == f && redis[1..] == RedisDecisions(l, s, trace[1..], true);
  }

  lemma VolleyTail(subject: string, at: int, n: nat)
    requires n >= 1
    ensures Volley(subject, at, n)[0] == Arrival(subject, at)
    ensures Volley(subject, at, n)[1..] == Volley(subject, at, n - 1)
  {}

  /** The old window runs out before the new one: repeated often enough, the request is decided differently. */
  lemma {:induction false} VolleyDiffers(l: Limits, entries: map<string, Entry>, store: map<string, Counter>,
                                         subject: string, now: int)
    requires ValidLimits(l) && AtExpiry(store, subject, now) && store[subject].count >= 1
    requires 0 <= Used(entries, subject, now) < Min(store[subject].count, l.maxRequests)
    ensures var n := l.maxRequests + 1 - Min(store[subject].count, l.maxRequests);
      !Agree(l, entries, store, Volley(subject, now, n))
    decreases l.maxRequests - store[subject].count
  {
    var n := l.maxRequests + 1 - Min(store[subject].count, l.maxRequests);
    VolleyTail(subject, now, n);
    AgreeOnHead(l, entries, store, Volley(subject, now, n));
    if store[subject].count < l.maxRequests {
      VolleyDiffers(l, Consume(l, entries, subject, now).0, RedisConsume(l, store, subject, now, true).0, subject, now);
    }
  }

  /** Off the expiry the request may be repeated. */
  lemma {:induction false} VolleyAgrees(l: Limits, entries: map<string, Entry>, store: map<string, Counter>,
                                        subject: string, now: int, n: nat)
    requires ValidLimits(l) && Related(l, entries, store, now) && !AtExpiry(store, subject, now)
    ensures Agree(l, entries, store, Volley(subject, now, n))
    decreases n
  {
    if n > 0 {
      var e, s := Consume(l, entries, subject, now).0, RedisConsume(l, store, subject, now, true).0;
      StepKeepsRelated(l, entries, store, subject, now, true);
      VolleyTail(subject, now, n);
      AgreeOnHead(l, entries, store, Volley(subject, now, n));
      VolleyAgrees(l, e, s, subject, now, n - 1);
    }
  }

  /** The first n requests, and then the n-th of them m times more. */
  function Echo(trace: seq<Arrival>, n: nat, m: nat): seq<Arrival>
    requires 1 <= n <= |trace|
  {
    trace[..n] + Volley(trace[n - 1].subject, trace[n - 1].at, m)
  }

  ghost predicate EchoAgrees(l: Limits, entries: map<string, Entry>, store: map<string, Counter>,
                             trace: seq<Arrival>, n: nat, m: nat)
    requires 1 <= n <= |trace|
  {
    Agree(l, entries, store, Echo(trace, n, m))
  }

  /** Wherever the trace is broken off, and however often its last request is then repeated. */
  ghost predicate EchoesAgree(l: Limits, entries: map<string, Entry>, store: map<string, Counter>,
                              trace: seq<Arrival>)
  {
    forall n: nat, m: nat :: 1 <= n <= |trace| ==> EchoAgrees(l, entries, store, trace, n, m)
  }

  /** Every counter has counted something, as every counter the script ever wrote. */
  ghost predicate CountsOk(store: map<string, Counter>) {
    forall subject :: subject in store ==> store[subject].count >= 1
  }

  lemma FirstEcho(trace: seq<Arrival>, m: nat)
    requires trace != []
    ensures Echo(trace, 1, m) == Volley(trace[0].subject, trace[0].at, m + 1)
  {
    assert trace[..1] == [trace[0]];
  }

  lemma LaterEcho(trace: seq<Arrival>, n: nat, m: nat)
    requires 2 <= n <= |trace|
    ensures Echo(trace, n, m)[0] == trace[0] && Echo(trace, n, m)[1..] == Echo(trace[1..], n - 1, m)
  {
    assert trace[..n] == [trace[0]] + trace[1..][..n - 1];
  }

  lemma ExpiryIsHeard(l: Limits, entries: map<string, Entry>, store: map<string, Counter>, trace: seq<Arrival>)
    requires ValidLimits(l) && CountsOk(store) && trace != []
    requires Related(l, entries, store, trace[0].at) && AtExpiry(store, trace[0].subject, trace[0].at)
    ensures !EchoesAgree(l, entries, store, trace)
  {
    var a := trace[0];
    assert SameWindow(l, entries, store, a.subject, a.at);
    VolleyDiffers(l, entries, store, a.subject, a.at);
    var m := l.maxRequests - Min(store[a.subject].count, l.maxRequests);
    FirstEcho(trace, m);
    assert !EchoAgrees(l, entries, store, trace, 1, m);
  }

  lemma OffExpiryStep(l: Limits, entries: map<string, Entry>, store: map<string, Counter>, trace: seq<Arrival>)
    requires ValidLimits(l) && trace != []
    requires Related(l, entries, store, trace[0].at) && !AtExpiry(store, trace[0].subject, trace[0].at)
    ensures var a := trace[0];
      var e, s := Consume(l, entries, a.subject, a.at).0, RedisConsume(l, store, a.subject, a.at, true).0;
      EchoesAgree(l, entries, store, trace) <==> EchoesAgree(l, e, s, trace[1..])
  {
    var a := trace[0];
    var e, s := Consume(l, entries, a.subject, a.at).0, RedisConsume(l, store, a.subject, a.at, true).0;
    StepKeepsRelated(l, entries, store, a.subject, a.at, true);
    forall m: nat
      ensures EchoAgrees(l, entries, store, trace, 1, m)
    {
      FirstEcho(trace, m);
      VolleyAgrees(l, entries, store, a.subject, a.at, m + 1);
    }
    forall n: nat, m: nat | 1 <= n < |trace|
      ensures EchoAgrees(l, entries, store, trace, n + 1, m) <==> EchoAgrees(l, e, s, trace[1..], n, m)
    {
      LaterEcho(trace, n + 1, m);
      AgreeOnHead(l, entries, store, Echo(trace, n + 1, m));
    }
    if EchoesAgree(l, entries, store, trace) {
      forall n: nat, m: nat | 1 <= n <= |trace[1..]|
        ensures EchoAgrees(l, e, s, trace[1..], n, m)
      {
        assert EchoAgrees(l, entries, store, trace, n + 1, m);
      }
    }
    if EchoesAgree(l, e, s, trace[1..]) {
      forall n: nat, m: nat | 1 <= n <= |trace|
        ensures EchoAgrees(l, entries, store, trace, n, m)
      {
        assert n > 1 ==> EchoAgrees(l, e, s, trace[1..], n - 1, m);
      }
    }
  }

  /**
   * Where counters linger, the two limiters agree along a trace, broken off anywhere and its last
   * request repeated any number of times, if and only if no request of it meets its counter's expiry.
   */
  lemma {:induction false} AgreementIsExact(l: Limits, entries: map<string, Entry>, store: map<string, Counter>,
                                            now: int, trace: seq<Arrival>)
    requires ValidLimits(l) && Related(l, entries, store, now) && CountsOk(store)
    requires Chronological(trace) && (trace != [] ==> now <= trace[0].at)
    ensures EchoesAgree(l, entries, store, trace) <==> OffExpiry(l, store, trace, true)
    decreases |trace|
  {
    if trace != [] {
      var a := trace[0];
      LaterStillRelated(l, entries, store, now, a.at);
      if AtExpiry(store, a.subject, a.at) {
        ExpiryIsHeard(l, entries, store, trace);
      } else {
        StepKeepsRelated(l, entries, store, a.subject, a.at, true);
        OffExpiryStep(l, entries, store, trace);
        AgreementIsExact(l, Consume(l, entries, a.subject, a.at).0,
                         RedisConsume(l, store, a.subject, a.at, true).0, a.at, trace[1..]);
      }
    }
  }

  /** In particular from the empty stores. */
  lemma AgreementIsExactFromTheStart(l: Limits, trace: seq<Arrival>)
    requires ValidLimits(l) && Chronological(trace)
    ensures EchoesAgree(l, map[], map[], trace) <==> OffExpiry(l, map[], trace, true)
  {
    if trace != [] {
      AgreementIsExact(l, map[], map[], trace[0].at, trace);
    }
  }
}
