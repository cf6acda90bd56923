/** The circuit breaker as a value: what each call makes of its five fields, and tells the observer. */
module BreakerModel {
  import opened Domain

  datatype CircuitState = Closed | Open | HalfOpen

  datatype Permit = Permit(mode: CircuitState, generation: nat)

  datatype BreakerConfig = BreakerConfig(failureThreshold: int, openDurationMs: int)

  /** The two calls on the observer; the first remembers when it was made. */
  datatype Notice = OpenedNotice(at: int) | ClosedNotice

  /** `notices` is every call on the observer so far. */
  datatype Breaker = Breaker(
    state: CircuitState,
    consecutiveFailures: int,
    openedAtMs: int,
    halfOpenProbeInFlight: bool,
    generation: nat,
    notices: seq<Notice>)

  /** The three ways a permit holder reports back. */
  datatype Outcome = Success | Failure | NonFailure

  /** The calls other executions of the same replica make on the shared breaker. */
  datatype BreakerCall =
    | Look(at: int)
    | Ask(at: int)
    | Report(permit: Permit, outcome: Outcome, at: int)

  const INITIAL := Breaker(Closed, 0, 0, false, 0, [])

  predicate ValidBreaker(c: BreakerConfig) {
    && 1 <= c.failureThreshold <= MAX_SAFE_INTEGER
    && 1 <= c.openDurationMs <= MAX_SAFE_INTEGER
  }

  function Advance(c: BreakerConfig, b: Breaker, now: int): Breaker {
    if b.state.Open? && now - b.openedAtMs >= c.openDurationMs
    then b.(state := HalfOpen, halfOpenProbeInFlight := false)
    else b
  }

  function Acquire(c: BreakerConfig, b: Breaker, now: int): (Breaker, Option<Permit>) {
    var a := Advance(c, b, now);
    match a.state
    case Open => (a, None)
    case HalfOpen =>
      if a.halfOpenProbeInFlight then (a, None)
      else (a.(halfOpenProbeInFlight := true), Some(Permit(HalfOpen, a.generation)))
    case Closed => (a, Some(Permit(Closed, a.generation)))
  }

  function Opened(b: Breaker, now: int): Breaker {
    Breaker(Open, 0, now, false, b.generation + 1, b.notices + [OpenedNotice(now)])
  }

  function Reclosed(b: Breaker): Breaker {
    Breaker(Closed, 0, b.openedAtMs, false, b.generation + 1, b.notices + [ClosedNotice])
  }

  function Record(c: BreakerConfig, b: Breaker, p: Permit, outcome: Outcome, now: int): (r: Breaker)
    ensures b.notices <= r.notices
  {
    if p.generation != b.generation then b
    else match outcome
      case Success =>
        if p.mode.HalfOpen? then Reclosed(b)
        else if b.state.Closed? then b.(consecutiveFailures := 0)
        else b
      case Failure =>
        if p.mode.HalfOpen? then Opened(b, now)
        else if !b.state.Closed? then b
        else if b.consecutiveFailures + 1 >= c.failureThreshold then Opened(b, now)
        else b.(consecutiveFailures := b.consecutiveFailures + 1)
      case NonFailure =>
        if p.mode.HalfOpen? then Reclosed(b) else b
  }

  function Perform(c: BreakerConfig, b: Breaker, call: BreakerCall): Breaker {
    match call
    case Look(at) => Advance(c, b, at)
    case Ask(at) => Acquire(c, b, at).0
    case Report(permit, outcome, at) => Record(c, b, permit, outcome, at)
  }

  function PerformAll(c: BreakerConfig, b: Breaker, calls: seq<BreakerCall>): Breaker {
    if calls == [] then b
    else Perform(c, PerformAll(c, b, calls[..|calls| - 1]), calls[|calls| - 1])
  }
}

/** The object itself; the clock reading of each call is an argument. */
module CircuitBreakers {
  import opened Domain
  import opened BreakerModel

  class CircuitBreaker {
    const config: BreakerConfig
    var currentState: CircuitState
    var consecutiveFailures: int
    var openedAtMs: int
    var halfOpenProbeInFlight: bool
    var generation: nat
    var notices: seq<Notice>

    ghost function Model(): Breaker
      reads this
    {
      Breaker(currentState, consecutiveFailures, openedAtMs, halfOpenProbeInFlight, generation, notices)
    }

    constructor (config: BreakerConfig)
      requires ValidBreaker(config)
      ensures this.config == config && Model() == INITIAL
    {
      this.config := config;
      currentState, consecutiveFailures, openedAtMs := Closed, 0, 0;
      halfOpenProbeInFlight, generation, notices := false, 0, [];
    }

    /** What `new` does: an invalid configuration throws, and there is no breaker. */
    static method Create(config: BreakerConfig) returns (breaker: CircuitBreaker?)
      ensures breaker != null <==> ValidBreaker(config)
      ensures breaker != null ==> fresh(breaker) && breaker.config == config && breaker.Model() == INITIAL
    {
      if config.failureThreshold < 1 || config.failureThreshold > MAX_SAFE_INTEGER {
        return null;
      }
      if config.openDurationMs < 1 || config.openDurationMs > MAX_SAFE_INTEGER {
        return null;
      }
      breaker := new CircuitBreaker(config);
    }

    method State(now: int) returns (state: CircuitState)
      modifies this
      ensures Model() == Advance(config, old(Model()), now)
      ensures state == Model().state
    {
      AdvanceToHalfOpenWhenReady(now);
      state := currentState;
    }

    method Acquire(now: int) returns (permit: Option<Permit>)
      modifies this
      ensures (Model(), permit) == BreakerModel.Acquire(config, old(Model()), now)
    {
      AdvanceToHalfOpenWhenReady(now);
      if currentState.Open? {
        return None;
      }
      if currentState.HalfOpen? {
        if halfOpenProbeInFlight {
          return None;
        }
        halfOpenProbeInFlight := true;
        return Some(Permit(HalfOpen, generation));
      }
      return Some(Permit(Closed, generation));
    }

    method RecordSuccess(permit: Permit, now: int)
      modifies this
      ensures Model() == Record(config, old(Model()), permit, Success, now)
    {
      if permit.generation != generation {
        return;
      }
      if permit.mode.HalfOpen? {
        Close();
        return;
      }
      if currentState.Closed? {
        consecutiveFailures := 0;
      }
    }

    method RecordFailure(permit: Permit, now: int)
      modifies this
      ensures Model() == Record(config, old(Model()), permit, Failure, now)
    {
      if permit.generation != generation {
        return;
      }
      if permit.mode.HalfOpen? {
        OpenAt(now);
        return;
      }
      if !currentState.Closed? {
        return;
      }
      consecutiveFailures := consecutiveFailures + 1;
      if consecutiveFailures >= config.failureThreshold {
        OpenAt(now);
      }
    }

    method RecordNonFailure(permit: Permit, now: int)
      modifies this
      ensures Model() == Record(config, old(Model()), permit, NonFailure, now)
    {
      if permit.generation != generation {
        return;
      }
      if permit.mode.HalfOpen? {
        Close();
      }
    }

    /** What other executions do to the shared breaker while this one awaits. */
    method Interfere(calls: seq<BreakerCall>)
      modifies this
      ensures Model() == PerformAll(config, old(Model()), calls)
    {
      for i := 0 to |calls|
        invariant Model() == PerformAll(config, old(Model()), calls[..i])
      {
        assert calls[..i + 1][..i] == calls[..i];
        match calls[i]
        case Look(at) => var _ := State(at);
        case Ask(at) => var _ := Acquire(at);
        case Report(permit, outcome, at) =>
          match outcome
          case Success => RecordSuccess(permit, at);
          case Failure => RecordFailure(permit, at);
          case NonFailure => RecordNonFailure(permit, at);
      }
      assert calls[..|calls|] == calls;
    }

    method AdvanceToHalfOpenWhenReady(now: int)
      modifies this
      ensures Model() == Advance(config, old(Model()), now)
    {
      if currentState.Open? && now - openedAtMs >= config.openDurationMs {
        currentState := HalfOpen;
        halfOpenProbeInFlight := false;
      }
    }

    method OpenAt(now: int)
      modifies this
      ensures Model() == Opened(old(Model()), now)
    {
      currentState, openedAtMs, consecutiveFailures := Open, now, 0;
      halfOpenProbeInFlight, generation := false, generation + 1;
      notices := notices + [OpenedNotice(now)];
    }

    method Close()
      modifies this
      ensures Model() == Reclosed(old(Model()))
    {
      currentState, consecutiveFailures := Closed, 0;
      halfOpenProbeInFlight, generation := false, generation + 1;
      notices := notices + [ClosedNotice];
    }
  }
}
