/**
 * One breaker and every permit it ever granted, under any interleaving of calls. A permit may be
 * reported late, more than once, or (when its holder crashes) never.
 */
module BreakerRuns {
  import opened BreakerModel

  datatype Event =
    | Granted(permit: Permit, at: int)
    | Reported(permit: Permit, outcome: Outcome, at: int)
    | Noticed(notice: Notice)

  /** `held` files every permit still in somebody's hands; `log` is the whole history. */
  datatype World = World(breaker: Breaker, held: map<nat, Permit>, log: seq<Event>, now: int)

  datatype Step =
    | LookAt(at: int)
    | AskFor(holder: nat, at: int)
    | ReportBy(holder: nat, outcome: Outcome, at: int)
    | Forget(holder: nat)

  const START := World(INITIAL, map[], [], 0)

  predicate Possible(w: World, step: Step) {
    match step
    case LookAt(at) => w.now <= at
    case AskFor(holder, at) => w.now <= at && holder !in w.held
    case ReportBy(holder, _, at) => w.now <= at && holder in w.held
    case Forget(_) => true
  }

  function Heard(notices: seq<Notice>): (events: seq<Event>)
    ensures |events| == |notices| && forall i :: 0 <= i < |notices| ==> events[i] == Noticed(notices[i])
  {
    seq(|notices|, i requires 0 <= i < |notices| => Noticed(notices[i]))
  }

  /** What the observer is told between two states of the breaker. */
  function Told(before: Breaker, after: Breaker): seq<Event>
    requires before.notices <= after.notices
  {
    Heard(after.notices[|before.notices|..])
  }

  function After(c: BreakerConfig, w: World, step: Step): World
    requires Possible(w, step)
  {
    match step
    case LookAt(at) => w.(breaker := Advance(c, w.breaker, at), now := at)
    case AskFor(holder, at) =>
      (match Acquire(c, w.breaker, at)
       case (b, None) => w.(breaker := b, now := at)
       case (b, Some(p)) => World(b, w.held[holder := p], w.log + [Granted(p, at)], at))
    case ReportBy(holder, outcome, at) =>
      var p := w.held[holder];
      var b := Record(c, w.breaker, p, outcome, at);
      World(b, w.held, w.log + [Reported(p, outcome, at)] + Told(w.breaker, b), at)
    case Forget(holder) => w.(held := w.held - {holder})
  }

  ghost predicate Run(c: BreakerConfig, worlds: seq<World>, steps: seq<Step>) {
    && |worlds| == |steps| + 1
    && worlds[0] == START
    && forall i :: 0 <= i < |steps| ==>
         Possible(worlds[i], steps[i]) && worlds[i + 1] == After(c, worlds[i], steps[i])
  }

  // ---- Permits -------------------------------------------------------------------------------

  predicate Current(w: World, p: Permit) {
    p.generation == w.breaker.generation
  }

  ghost predicate PermitsOk(w: World) {
    && (forall h :: h in w.held ==> w.held[h].generation <= w.breaker.generation)
    && (forall h :: h in w.held && Current(w, w.held[h]) ==>
          && w.held[h].mode == w.breaker.state
          && !w.breaker.state.Open?
          && (w.breaker.state.HalfOpen? ==> w.breaker.halfOpenProbeInFlight))
    && (w.breaker.state.HalfOpen? ==>
          forall g, h :: g in w.held && h in w.held && Current(w, w.held[g]) && Current(w, w.held[h])
            ==> g == h)
  }

  lemma PermitsKept(c: BreakerConfig, w: World, step: Step)
    requires Possible(w, step) && PermitsOk(w)
    ensures PermitsOk(After(c, w, step))
  {}

  // ---- Generations and notifications ---------------------------------------------------------

  /** What the observer was told, as the history has it. */
  function NoticesIn(log: seq<Event>): seq<Notice> {
    if log == [] then []
    else
      var last := log[|log| - 1];
      NoticesIn(log[..|log| - 1]) + if last.Noticed? then [last.notice] else []
  }

  lemma NoticesInAppend(log: seq<Event>, e: Event)
    ensures NoticesIn(log + [e]) == NoticesIn(log) + if e.Noticed? then [e.notice] else []
  {
    assert (log + [e])[..|log|] == log;
  }

  /**
   * One notification for each generation; and the last one tells whether the breaker has closed or
   * opened since.
   */
  predicate ToldOk(b: Breaker) {
    var notices := b.notices;
    && b.generation == |notices|
    && (b.state.Closed? <==> notices == [] || notices[|notices| - 1].ClosedNotice?)
    && (!b.state.Closed? ==> notices[|notices| - 1] == OpenedNotice(b.openedAtMs))
  }

  /** And the history has every one of them. */
  ghost predicate NoticesOk(w: World) {
    NoticesIn(w.log) == w.breaker.notices && ToldOk(w.breaker)
  }

  lemma RecordTells(c: BreakerConfig, b: Breaker, p: Permit, outcome: Outcome, now: int)
    requires ToldOk(b) && (p.generation == b.generation ==> p.mode == b.state)
    ensures var r := Record(c, b, p, outcome, now);
      && ToldOk(r)
      && (r.generation == b.generation ==> r.notices == b.notices)
      && (r.generation != b.generation ==> exists notice :: r.notices == b.notices + [notice])
  {}

  lemma AcquireTellsNothing(c: BreakerConfig, b: Breaker, now: int)
    requires ToldOk(b)
    ensures ToldOk(Acquire(c, b, now).0) && Acquire(c, b, now).0.notices == b.notices
  {}

  lemma AskKeepsNotices(c: BreakerConfig, w: World, holder: nat, at: int)
    requires Possible(w, AskFor(holder, at)) && NoticesOk(w)
    ensures NoticesOk(After(c, w, AskFor(holder, at)))
  {
    AcquireTellsNothing(c, w.breaker, at);
    var permit := Acquire(c, w.breaker, at).1;
    if permit.Some? {
      NoticesInAppend(w.log, Granted(permit.value, at));
    }
  }

  /** A report is logged, and after it the notification it causes, if it moves the generation. */
  lemma ReportIsLogged(c: BreakerConfig, w: World, holder: nat, outcome: Outcome, at: int)
    requires Possible(w, ReportBy(holder, outcome, at))
    ensures var v := After(c, w, ReportBy(holder, outcome, at));
      var log, told := w.log + [Reported(w.held[holder], outcome, at)], |w.breaker.notices|;
      if v.breaker.generation == w.breaker.generation then
        v.log == log && v.breaker.notices == w.breaker.notices
      else
        && |v.breaker.notices| == told + 1
        && v.log == log + [Noticed(v.breaker.notices[told])]
  {
    var v := After(c, w, ReportBy(holder, outcome, at));
    var told := v.breaker.notices[|w.breaker.notices|..];
    if v.breaker.generation == w.breaker.generation {
      assert told == [];
    } else {
      assert told == [v.breaker.notices[|w.breaker.notices|]];
    }
  }

  lemma ReportedNoticesIn(log: seq<Event>, reported: Event, notice: Notice)
    requires reported.Reported?
    ensures NoticesIn(log + [reported]) == NoticesIn(log)
    ensures NoticesIn(log + [reported] + [Noticed(notice)]) == NoticesIn(log) + [notice]
  {
    NoticesInAppend(log, reported);
    NoticesInAppend(log + [reported], Noticed(notice));
  }

  lemma ReportKeepsNotices(c: BreakerConfig, w: World, holder: nat, outcome: Outcome, at: int)
    requires Possible(w, ReportBy(holder, outcome, at)) && PermitsOk(w) && NoticesOk(w)
    ensures NoticesOk(After(c, w, ReportBy(holder, outcome, at)))
  {
    var v := After(c, w, ReportBy(holder, outcome, at));
    var reported := Reported(w.held[holder], outcome, at);
    RecordTells(c, w.breaker, w.held[holder], outcome, at);
    ReportIsLogged(c, w, holder, outcome, at);
    if v.breaker.generation == w.breaker.generation {
      ReportedNoticesIn(w.log, reported, ClosedNotice);
    } else {
      var notice :| v.breaker.notices == w.breaker.notices + [notice];
      ReportedNoticesIn(w.log, reported, notice);
    }
  }

  /** Opening and closing are the only changes of generation, and the observer hears of every one. */
  lemma NoticesKept(c: BreakerConfig, w: World, step: Step)
    requires Possible(w, step) && PermitsOk(w) && NoticesOk(w)
    ensures NoticesOk(After(c, w, step))
  {
    match step
    case AskFor(holder, at) => AskKeepsNotices(c, w, holder, at);
    case ReportBy(holder, outcome, at) => ReportKeepsNotices(c, w, holder, outcome, at);
    case LookAt(_) =>
    case Forget(_) =>
  }

  // ---- The failure count against its history -------------------------------------------------

  /**
   * Failures reported on permits of one generation since the last success reported on that
   * generation. Non-failures, and every other generation, are skipped.
   */
  function Streak(log: seq<Event>, generation: nat): nat {
    if log == [] then 0
    else
      var last, before := log[|log| - 1], log[..|log| - 1];
      if last.Reported? && last.permit.generation == generation then
        match last.outcome
        case Success => 0
        case Failure => Streak(before, generation) + 1
        case NonFailure => Streak(before, generation)
      else Streak(before, generation)
  }

  function StreakAfter(streak: nat, e: Event, generation: nat): nat {
    if e.Reported? && e.permit.generation == generation then
      match e.outcome
      case Success => 0
      case Failure => streak + 1
      case NonFailure => streak
    else streak
  }

  lemma StreakAppend(log: seq<Event>, e: Event, generation: nat)
    ensures Streak(log + [e], generation) == StreakAfter(Streak(log, generation), e, generation)
  {
    assert (log + [e])[..|log|] == log;
  }

  ghost predicate LogUpTo(log: seq<Event>, generation: nat) {
    forall i :: 0 <= i < |log| && log[i].Reported? ==> log[i].permit.generation <= generation
  }

  lemma {:induction false} FreshGenerationHasNoStreak(log: seq<Event>, generation: nat)
    requires LogUpTo(log, generation)
    ensures Streak(log, generation + 1) == 0
  {
    if log != [] {
      FreshGenerationHasNoStreak(log[..|log| - 1], generation);
    }
  }

  ghost predicate CountOk(c: BreakerConfig, w: World) {
    && LogUpTo(w.log, w.breaker.generation)
    && w.breaker.consecutiveFailures == Streak(w.log, w.breaker.generation)
    && w.breaker.consecutiveFailures < c.failureThreshold
    && (!w.breaker.state.Closed? ==> w.breaker.consecutiveFailures == 0)
  }

  lemma AskKeepsCount(c: BreakerConfig, w: World, holder: nat, at: int)
    requires ValidBreaker(c) && Possible(w, AskFor(holder, at)) && PermitsOk(w) && CountOk(c, w)
    ensures CountOk(c, After(c, w, AskFor(holder, at)))
  {
    var permit := Acquire(c, w.breaker, at).1;
    if permit.Some? {
      StreakAppend(w.log, Granted(permit.value, at), w.breaker.generation);
    }
  }

  /** What a report makes of the count: one step of the streak, or a new generation without one. */
  lemma RecordCounts(c: BreakerConfig, b: Breaker, p: Permit, outcome: Outcome, now: int)
    requires ValidBreaker(c) && 0 <= b.consecutiveFailures < c.failureThreshold
    requires !b.state.Closed? ==> b.consecutiveFailures == 0
    requires p.generation == b.generation ==> p.mode == b.state && !b.state.Open?
    ensures var r := Record(c, b, p, outcome, now);
      && r.consecutiveFailures < c.failureThreshold
      && (!r.state.Closed? ==> r.consecutiveFailures == 0)
      && (if r.generation == b.generation
          then r.consecutiveFailures == StreakAfter(b.consecutiveFailures, Reported(p, outcome, now), b.generation)
          else r.generation == b.generation + 1 && r.consecutiveFailures == 0)
  {}

  /** A notification after the report does not touch the streaks. */
  lemma ReportedStreaks(log: seq<Event>, reported: Event, notice: Notice, generation: nat)
    requires reported.Reported? && LogUpTo(log, generation) && reported.permit.generation <= generation
    ensures LogUpTo(log + [reported], generation)
    ensures LogUpTo(log + [reported] + [Noticed(notice)], generation + 1)
    ensures Streak(log + [reported], generation) == StreakAfter(Streak(log, generation), reported, generation)
    ensures Streak(log + [reported] + [Noticed(notice)], generation + 1) == 0
  {
    StreakAppend(log, reported, generation);
    FreshGenerationHasNoStreak(log + [reported], generation);
    StreakAppend(log + [reported], Noticed(notice), generation + 1);
  }

  lemma ReportKeepsCount(c: BreakerConfig, w: World, holder: nat, outcome: Outcome, at: int)
    requires ValidBreaker(c) && Possible(w, ReportBy(holder, outcome, at)) && PermitsOk(w) && CountOk(c, w)
    ensures CountOk(c, After(c, w, ReportBy(holder, outcome, at)))
  {
    var v := After(c, w, ReportBy(holder, outcome, at));
    var reported := Reported(w.held[holder], outcome, at);
    RecordCounts(c, w.breaker, w.held[holder], outcome, at);
    ReportIsLogged(c, w, holder, outcome, at);
    if v.breaker.generation == w.breaker.generation {
      ReportedStreaks(w.log, reported, ClosedNotice, w.breaker.generation);
    } else {
      ReportedStreaks(w.log, reported, v.breaker.notices[|w.breaker.notices|], w.breaker.generation);
    }
  }

  lemma CountKept(c: BreakerConfig, w: World, step: Step)
    requires ValidBreaker(c) && Possible(w, step) && PermitsOk(w) && CountOk(c, w)
    ensures CountOk(c, After(c, w, step))
  {
    match step
    case AskFor(holder, at) => AskKeepsCount(c, w, holder, at);
    case ReportBy(holder, outcome, at) => ReportKeepsCount(c, w, holder, outcome, at);
    case LookAt(_) =>
    case Forget(_) =>
  }

  /** From closed, a report opens the breaker exactly when the history count reaches the threshold. */
  lemma OpensExactlyAtThreshold(c: BreakerConfig, w: World, holder: nat, outcome: Outcome, at: int)
    requires ValidBreaker(c) && PermitsOk(w) && CountOk(c, w)
    requires Possible(w, ReportBy(holder, outcome, at)) && w.breaker.state.Closed?
    ensures var v := After(c, w, ReportBy(holder, outcome, at));
      v.breaker.state.Open? <==>
        Streak(w.log + [Reported(w.held[holder], outcome, at)], w.breaker.generation) == c.failureThreshold
  {
    StreakAppend(w.log, Reported(w.held[holder], outcome, at), w.breaker.generation);
  }

  // ---- Probes --------------------------------------------------------------------------------

  /** What the observer hears of a probe: closed again unless it failed, and open again if it did. */
  function ProbeNotice(outcome: Outcome, at: int): Notice {
    match outcome
    case Success => ClosedNotice
    case NonFailure => ClosedNotice
    case Failure => OpenedNotice(at)
  }

  /** Event i of the history reports on a half-open permit of the generation of that moment. */
  predicate ReportsProbe(log: seq<Event>, i: nat)
    requires i < |log|
  {
    log[i].Reported? && log[i].permit.mode.HalfOpen? && log[i].permit.generation == |NoticesIn(log[..i])|
  }

  /** Every such report is followed at once by its notification. */
  ghost predicate ProbesOk(log: seq<Event>) {
    forall i: nat :: i < |log| && ReportsProbe(log, i) ==>
      i + 1 < |log| && log[i + 1] == Noticed(ProbeNotice(log[i].outcome, log[i].at))
  }

  lemma ProbesAppendQuiet(log: seq<Event>, e: Event)
    requires ProbesOk(log)
    requires e.Reported? && e.permit.mode.HalfOpen? ==> e.permit.generation != |NoticesIn(log)|
    ensures ProbesOk(log + [e])
  {
    var longer := log + [e];
    assert longer[..|log|] == log;
    forall i: nat | i < |longer| && ReportsProbe(longer, i)
      ensures i + 1 < |longer| && longer[i + 1] == Noticed(ProbeNotice(longer[i].outcome, longer[i].at))
    {
      if i < |log| {
        assert longer[..i] == log[..i];
        assert ReportsProbe(log, i);
      }
    }
  }

  lemma ProbesAppendProbe(log: seq<Event>, e: Event)
    requires ProbesOk(log) && e.Reported?
    ensures ProbesOk(log + [e] + [Noticed(ProbeNotice(e.outcome, e.at))])
  {
    var longer := log + [e] + [Noticed(ProbeNotice(e.outcome, e.at))];
    forall i: nat | i < |longer| && ReportsProbe(longer, i)
      ensures i + 1 < |longer| && longer[i + 1] == Noticed(ProbeNotice(longer[i].outcome, longer[i].at))
    {
      if i < |log| {
        assert longer[..i] == log[..i];
        assert ReportsProbe(log, i);
      }
    }
  }

  /** The report of the current probe decides the state: closed unless it failed, and open since then if it did. */
  lemma ProbeDecides(c: BreakerConfig, w: World, holder: nat, outcome: Outcome, at: int)
    requires PermitsOk(w) && NoticesOk(w) && Possible(w, ReportBy(holder, outcome, at))
    requires w.held[holder].mode.HalfOpen? && w.held[holder].generation == |NoticesIn(w.log)|
    ensures var v := After(c, w, ReportBy(holder, outcome, at));
      && v.log == w.log + [Reported(w.held[holder], outcome, at)] + [Noticed(ProbeNotice(outcome, at))]
      && (outcome.Failure? ==> v.breaker.state.Open? && v.breaker.openedAtMs == at)
      && (!outcome.Failure? ==> v.breaker.state.Closed?)
      && v.breaker.consecutiveFailures == 0
  {
    ReportIsLogged(c, w, holder, outcome, at);
  }

  /** A report that is not on the current probe opens the breaker from closed, by a failure, or tells nothing. */
  lemma OtherReportsTell(c: BreakerConfig, w: World, holder: nat, outcome: Outcome, at: int)
    requires PermitsOk(w) && NoticesOk(w) && Possible(w, ReportBy(holder, outcome, at))
    requires !(w.held[holder].mode.HalfOpen? && w.held[holder].generation == |NoticesIn(w.log)|)
    ensures var v, log := After(c, w, ReportBy(holder, outcome, at)), w.log + [Reported(w.held[holder], outcome, at)];
      || (v.log == log && v.breaker.state == w.breaker.state && v.breaker.openedAtMs == w.breaker.openedAtMs)
      || (w.breaker.state.Closed? && outcome.Failure? && w.held[holder].generation == |NoticesIn(w.log)|
          && v.breaker.state.Open? && v.breaker.openedAtMs == at && v.log == log + [Noticed(OpenedNotice(at))])
  {
    ReportIsLogged(c, w, holder, outcome, at);
  }

  lemma ReportKeepsProbes(c: BreakerConfig, w: World, holder: nat, outcome: Outcome, at: int)
    requires PermitsOk(w) && NoticesOk(w) && ProbesOk(w.log) && Possible(w, ReportBy(holder, outcome, at))
    ensures ProbesOk(After(c, w, ReportBy(holder, outcome, at)).log)
  {
    var reported := Reported(w.held[holder], outcome, at);
    if w.held[holder].mode.HalfOpen? && w.held[holder].generation == |NoticesIn(w.log)| {
      ProbeDecides(c, w, holder, outcome, at);
      ProbesAppendProbe(w.log, reported);
    } else {
      OtherReportsTell(c, w, holder, outcome, at);
      ProbesAppendQuiet(w.log, reported);
      ProbesAppendQuiet(w.log + [reported], Noticed(OpenedNotice(at)));
    }
  }

  lemma ProbesKept(c: BreakerConfig, w: World, step: Step)
    requires Possible(w, step) && PermitsOk(w) && NoticesOk(w) && ProbesOk(w.log)
    ensures ProbesOk(After(c, w, step).log)
  {
    match step
    case AskFor(holder, at) =>
      var permit := Acquire(c, w.breaker, at).1;
      if permit.Some? {
        ProbesAppendQuiet(w.log, Granted(permit.value, at));
      }
    case ReportBy(holder, outcome, at) => ReportKeepsProbes(c, w, holder, outcome, at);
    case LookAt(_) =>
    case Forget(_) =>
  }

  /** Whether the probe of this generation was handed out, as the history has it. */
  ghost predicate ProbeGranted(log: seq<Event>, generation: nat) {
    exists i :: 0 <= i < |log| && log[i].Granted? && log[i].permit == Permit(HalfOpen, generation)
  }

  /** No probe is granted ahead of its generation; while half open the flag says whether it was granted. */
  ghost predicate FlagOk(w: World) {
    && (forall i :: 0 <= i < |w.log| && w.log[i].Granted? ==>
          w.log[i].permit.generation <= w.breaker.generation)
    && (w.breaker.state.HalfOpen? ==>
          (w.breaker.halfOpenProbeInFlight <==> ProbeGranted(w.log, w.breaker.generation)))
    && (!w.breaker.state.HalfOpen? ==> !ProbeGranted(w.log, w.breaker.generation))
  }

  lemma GrantedAppend(log: seq<Event>, e: Event, generation: nat)
    ensures ProbeGranted(log + [e], generation) <==>
      ProbeGranted(log, generation) || (e.Granted? && e.permit == Permit(HalfOpen, generation))
  {
    var longer := log + [e];
    if ProbeGranted(log, generation) {
      var i :| 0 <= i < |log| && log[i].Granted? && log[i].permit == Permit(HalfOpen, generation);
      assert longer[i] == log[i];
    }
    if e.Granted? && e.permit == Permit(HalfOpen, generation) {
      assert longer[|log|] == e;
    }
    if ProbeGranted(longer, generation) {
      var i :| 0 <= i < |longer| && longer[i].Granted? && longer[i].permit == Permit(HalfOpen, generation);
      assert i < |log| ==> log[i] == longer[i];
    }
  }

  lemma AskKeepsFlag(c: BreakerConfig, w: World, holder: nat, at: int)
    requires Possible(w, AskFor(holder, at)) && FlagOk(w)
    ensures FlagOk(After(c, w, AskFor(holder, at)))
  {
    var permit := Acquire(c, w.breaker, at).1;
    if permit.Some? {
      GrantedAppend(w.log, Granted(permit.value, at), w.breaker.generation);
    }
  }

  lemma ReportKeepsFlag(c: BreakerConfig, w: World, holder: nat, outcome: Outcome, at: int)
    requires PermitsOk(w) && FlagOk(w) && Possible(w, ReportBy(holder, outcome, at))
    ensures FlagOk(After(c, w, ReportBy(holder, outcome, at)))
  {
    var v := After(c, w, ReportBy(holder, outcome, at));
    var reported := Reported(w.held[holder], outcome, at);
    ReportIsLogged(c, w, holder, outcome, at);
    GrantedAppend(w.log, reported, v.breaker.generation);
    if v.breaker.generation != w.breaker.generation {
      GrantedAppend(w.log + [reported], Noticed(v.breaker.notices[|w.breaker.notices|]), v.breaker.generation);
    }
  }

  lemma FlagKept(c: BreakerConfig, w: World, step: Step)
    requires Possible(w, step) && PermitsOk(w) && FlagOk(w)
    ensures FlagOk(After(c, w, step))
  {
    match step
    case AskFor(holder, at) => AskKeepsFlag(c, w, holder, at);
    case ReportBy(holder, outcome, at) => ReportKeepsFlag(c, w, holder, outcome, at);
    case LookAt(_) =>
    case Forget(_) =>
  }

  /**
   * Who is granted what. Closed, everybody gets a closed permit. Open, nobody before the interval is
   * over, and the first one after it gets the probe. Half open, the probe goes to the first who asks.
   */
  lemma GrantsExactly(c: BreakerConfig, w: World, holder: nat, at: int)
    requires NoticesOk(w) && FlagOk(w) && Possible(w, AskFor(holder, at))
    ensures var v, generation := After(c, w, AskFor(holder, at)), |NoticesIn(w.log)|;
      var granted := holder in v.held;
      && v.log == (if granted then w.log + [Granted(v.held[holder], at)] else w.log)
      && match w.breaker.state
         case Closed => granted && v.held[holder] == Permit(Closed, generation) && v.breaker.state.Closed?
         case Open =>
           && (granted <==> at >= w.breaker.openedAtMs + c.openDurationMs)
           && (granted ==> v.held[holder] == Permit(HalfOpen, generation) && v.breaker.state.HalfOpen?)
           && (!granted ==> v.breaker.state.Open?)
         case HalfOpen =>
           && (granted <==> !ProbeGranted(w.log, generation))
           && (granted ==> v.held[holder] == Permit(HalfOpen, generation))
           && v.breaker.state.HalfOpen?
  {}

  // ---- The open interval ---------------------------------------------------------------------

  predicate Opening(e: Event) {
    e.Noticed? && e.notice.OpenedNotice?
  }

  /** Every opening so far lies a full interval back, unless the breaker is still open for it. */
  ghost predicate OpeningsOk(c: BreakerConfig, w: World) {
    && (w.breaker.state.Open? ==> w.breaker.openedAtMs <= w.now)
    && forall i :: 0 <= i < |w.log| && Opening(w.log[i]) ==>
         if w.breaker.state.Open? then w.log[i].notice.at <= w.breaker.openedAtMs
         else w.log[i].notice.at + c.openDurationMs <= w.now
  }

  /** No permit is granted within `openDurationMs` of an earlier opening. */
  ghost predicate NoGrantWhileOpen(c: BreakerConfig, w: World) {
    forall i, j :: 0 <= i < j < |w.log| && Opening(w.log[i]) && w.log[j].Granted? ==>
      w.log[i].notice.at + c.openDurationMs <= w.log[j].at
  }

  lemma OpeningsKept(c: BreakerConfig, w: World, step: Step)
    requires ValidBreaker(c) && Possible(w, step) && PermitsOk(w)
    requires OpeningsOk(c, w) && NoGrantWhileOpen(c, w)
    ensures OpeningsOk(c, After(c, w, step)) && NoGrantWhileOpen(c, After(c, w, step))
  {}

  // ---- Whole runs ----------------------------------------------------------------------------

  ghost predicate BreakerInvariant(c: BreakerConfig, w: World) {
    && PermitsOk(w)
    && NoticesOk(w)
    && CountOk(c, w)
    && ProbesOk(w.log)
    && FlagOk(w)
    && OpeningsOk(c, w)
    && NoGrantWhileOpen(c, w)
  }

  lemma {:induction false} BreakerInvariantHolds(c: BreakerConfig, worlds: seq<World>, steps: seq<Step>, i: nat)
    requires ValidBreaker(c) && Run(c, worlds, steps) && i < |worlds|
    ensures BreakerInvariant(c, worlds[i])
  {
    if i > 0 {
      BreakerInvariantHolds(c, worlds, steps, i - 1);
      var w, step := worlds[i - 1], steps[i - 1];
      PermitsKept(c, w, step);
      NoticesKept(c, w, step);
      CountKept(c, w, step);
      ProbesKept(c, w, step);
      FlagKept(c, w, step);
      OpeningsKept(c, w, step);
    }
  }
}
