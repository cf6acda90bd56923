/** Whose payload was charged: when a provider record and the row of its key agree, and when not. */
module ProtocolPayload {
  import opened Domain
  import opened FailurePolicy
  import opened RetryPolicy
  import opened BreakerModel
  import opened Store
  import opened Protocol
  import opened ProtocolSafety
  import opened ProtocolLease

  /** The key has a row, under the fingerprint of this payload. */
  predicate HasRow(c: Config, t: Tables, key: Key, payload: TransactionInput) {
    key in t.operations && t.operations[key].fingerprint == c.fingerprint(payload)
  }

  predicate KeyAgrees(c: Config, s: State, key: Key)
    requires key in s.records
  {
    HasRow(c, s.tables, key, s.records[key].payload)
  }

  /** Every charged key has a row, and the row has the fingerprint of the charged payload. */
  ghost predicate Agreement(c: Config, s: State) {
    forall key :: key in s.records ==> KeyAgrees(c, s, key)
  }

  // ---- What loses the agreement --------------------------------------------------------------

  /** A claim is given back although its key is charged. */
  predicate ReleasesCharged(s: State, a: Action) {
    a.Release? && a.i in s.execs && s.execs[a.i].key in s.records
  }

  /** The provider charges a key that has no row for this payload. */
  predicate ChargesAstray(c: Config, s: State, a: Action) {
    a.ProviderHandles? && a.recorded.Some? && !HasRow(c, s.tables, a.sent.key, a.sent.payload)
  }

  lemma ReleaseLosesExactly(c: Config, s: State, i: nat)
    requires Retry(c).maxAttempts >= 1 && Leased(c, s) && Agreement(c, s)
    requires Enabled(c, s, Release(i))
    ensures Agreement(c, AfterRelease(c, s, i)) <==> s.execs[i].key !in s.records
  {
    var e, v := s.execs[i], AfterRelease(c, s, i);
    assert LeaseGood(c, s, i);
    assert v.tables.operations == s.tables.operations - {e.key};
    if e.key in s.records {
      assert !KeyAgrees(c, v, e.key);
    } else {
      forall key | key in v.records
        ensures KeyAgrees(c, v, key)
      {
        assert KeyAgrees(c, s, key);
      }
    }
  }

  lemma ChargeLosesExactly(c: Config, s: State, a: Action)
    requires Agreement(c, s) && Enabled(c, s, a) && a.ProviderHandles?
    ensures Agreement(c, After(c, s, a)) <==> !ChargesAstray(c, s, a)
  {
    var v := After(c, s, a);
    if ChargesAstray(c, s, a) {
      assert !KeyAgrees(c, v, a.sent.key);
    } else {
      forall key | key in v.records
        ensures KeyAgrees(c, v, key)
      {
        if key in s.records {
          assert KeyAgrees(c, s, key);
        }
      }
    }
  }

  /** Claims and completions keep the fingerprint of every row; the other steps do not write. */
  lemma RowsKeepFingerprint(c: Config, s: State, a: Action, key: Key, payload: TransactionInput)
    requires Enabled(c, s, a) && !a.Release? && HasRow(c, s.tables, key, payload)
    ensures HasRow(c, After(c, s, a).tables, key, payload)
  {}

  lemma OtherStepKeepsAgreement(c: Config, s: State, a: Action)
    requires Enabled(c, s, a) && Agreement(c, s) && !a.Release? && !a.ProviderHandles?
    ensures Agreement(c, After(c, s, a))
  {
    var v := After(c, s, a);
    if !a.Tick? {
      StepTouchesOne(c, s, a);
    }
    forall key | key in v.records
      ensures KeyAgrees(c, v, key)
    {
      assert KeyAgrees(c, s, key);
      RowsKeepFingerprint(c, s, a, key, s.records[key].payload);
    }
  }

  /** One step loses the agreement exactly when it releases a charged key or charges one astray. */
  lemma StepLosesExactly(c: Config, s: State, a: Action)
    requires LeaseCoversExecution(c.timing) && Leased(c, s) && Agreement(c, s) && Enabled(c, s, a)
    ensures Agreement(c, After(c, s, a)) <==> !ReleasesCharged(s, a) && !ChargesAstray(c, s, a)
  {
    if a.Release? {
      ReleaseLosesExactly(c, s, a.i);
    } else if a.ProviderHandles? {
      ChargeLosesExactly(c, s, a);
    } else {
      OtherStepKeepsAgreement(c, s, a);
    }
  }

  lemma {:induction false} AgreementUpTo(c: Config, states: seq<State>, actions: seq<Action>, n: nat)
    requires LeaseCoversExecution(c.timing) && TimelyRun(c, states, actions) && n < |states|
    requires forall m :: 0 <= m < n ==>
      !ReleasesCharged(states[m], actions[m]) && !ChargesAstray(c, states[m], actions[m])
    ensures Agreement(c, states[n])
  {
    if n > 0 {
      AgreementUpTo(c, states, actions, n - 1);
      LeasedAlways(c, states, actions, n - 1);
      StepLosesExactly(c, states[n - 1], actions[n - 1]);
    }
  }

  lemma AgreementLostAt(c: Config, states: seq<State>, actions: seq<Action>, n: nat)
    requires LeaseCoversExecution(c.timing) && TimelyRun(c, states, actions) && n < |actions|
    requires Agreement(c, states[n]) && Agreement(c, states[n + 1])
    ensures !ReleasesCharged(states[n], actions[n]) && !ChargesAstray(c, states[n], actions[n])
  {
    LeasedAlways(c, states, actions, n);
    StepLosesExactly(c, states[n], actions[n]);
  }

  /**
   * Payload agreement, exactly. Along any timely run every charged key keeps a row with the charged
   * payload's fingerprint if and only if no charged key is released and none is charged astray.
   */
  lemma PayloadAgreementExactly(c: Config, states: seq<State>, actions: seq<Action>)
    requires AcceptedTiming(c.timing) && TimelyRun(c, states, actions)
    ensures (forall n :: 0 <= n < |states| ==> Agreement(c, states[n])) <==>
            (forall m :: 0 <= m < |actions| ==>
               !ReleasesCharged(states[m], actions[m]) && !ChargesAstray(c, states[m], actions[m]))
  {
    if forall m :: 0 <= m < |actions| ==>
         !ReleasesCharged(states[m], actions[m]) && !ChargesAstray(c, states[m], actions[m]) {
      forall n | 0 <= n < |states|
        ensures Agreement(c, states[n])
      {
        AgreementUpTo(c, states, actions, n);
      }
    }
    if forall n :: 0 <= n < |states| ==> Agreement(c, states[n]) {
      forall m | 0 <= m < |actions|
        ensures !ReleasesCharged(states[m], actions[m]) && !ChargesAstray(c, states[m], actions[m])
      {
        AgreementLostAt(c, states, actions, m);
      }
    }
  }

  // ---- What a releasing execution would have to know -----------------------------------------

  predicate UnderWay(s: State, key: Key) {
    exists m :: m in s.wire && m.key == key
  }

  /** A claim is given back although its key is charged or may still come to be. */
  predicate UnsafeRelease(s: State, a: Action) {
    && a.Release? && a.i in s.execs
    && (s.execs[a.i].key in s.records || UnderWay(s, s.execs[a.i].key))
  }

  /** Every request under way has its row. */
  ghost predicate Backed(c: Config, s: State) {
    forall m :: m in s.wire ==> HasRow(c, s.tables, m.key, m.payload)
  }

  lemma CallKeepsTables(c: Config, s: State, a: Action, m: Sent)
    requires Enabled(c, s, a) && m in After(c, s, a).wire && m !in s.wire
    ensures a.AskBreaker? || a.Wake?
    ensures m.key == s.execs[a.i].key && m.payload == s.execs[a.i].input && Holding(s.execs[a.i])
    ensures After(c, s, a).tables == s.tables
  {}

  /** A request leaves with its row in place. */
  lemma SentWithRow(c: Config, s: State, a: Action, m: Sent)
    requires LeaseCoversExecution(c.timing) && Leased(c, s) && Enabled(c, s, a)
    requires m in After(c, s, a).wire && m !in s.wire
    ensures HasRow(c, After(c, s, a).tables, m.key, m.payload)
  {
    CallKeepsTables(c, s, a, m);
    assert LeaseGood(c, s, a.i);
  }

  /** Only a release of its key takes the row away from a request. */
  lemma RowStays(c: Config, s: State, a: Action, m: Sent)
    requires Enabled(c, s, a) && HasRow(c, s.tables, m.key, m.payload)
    requires a.Release? ==> s.execs[a.i].key != m.key
    ensures HasRow(c, After(c, s, a).tables, m.key, m.payload)
  {
    if !a.Release? {
      RowsKeepFingerprint(c, s, a, m.key, m.payload);
    }
  }

  lemma BackedKept(c: Config, s: State, a: Action)
    requires LeaseCoversExecution(c.timing) && Leased(c, s) && Backed(c, s)
    requires Enabled(c, s, a) && !UnsafeRelease(s, a)
    ensures Backed(c, After(c, s, a))
  {
    forall m | m in After(c, s, a).wire
      ensures HasRow(c, After(c, s, a).tables, m.key, m.payload)
    {
      if m in s.wire {
        RowStays(c, s, a, m);
      } else {
        SentWithRow(c, s, a, m);
      }
    }
  }

  /**
   * Payload agreement under a condition on releases alone: if no claim is given back while its key is
   * charged or a request for it is under way, every charged key has its row.
   */
  lemma {:induction false} SafeReleasesKeepAgreement(c: Config, states: seq<State>, actions: seq<Action>, n: nat)
    requires AcceptedTiming(c.timing) && TimelyRun(c, states, actions) && n < |states|
    requires forall m :: 0 <= m < n ==> !UnsafeRelease(states[m], actions[m])
    ensures Agreement(c, states[n]) && Backed(c, states[n])
  {
    if n > 0 {
      SafeReleasesKeepAgreement(c, states, actions, n - 1);
      LeasedAlways(c, states, actions, n - 1);
      assert !UnsafeRelease(states[n - 1], actions[n - 1]);
      StepLosesExactly(c, states[n - 1], actions[n - 1]);
      BackedKept(c, states[n - 1], actions[n - 1]);
    }
  }

  /** Not even one more delivery loses the agreement. */
  ghost predicate Secure(c: Config, s: State) {
    Agreement(c, s) &&
    forall a: Action :: a.ProviderHandles? && Enabled(c, s, a) ==> Agreement(c, After(c, s, a))
  }

  lemma BackedIsSecure(c: Config, s: State)
    requires Agreement(c, s) && Backed(c, s)
    ensures Secure(c, s)
  {
    forall a: Action | a.ProviderHandles? && Enabled(c, s, a)
      ensures Agreement(c, After(c, s, a))
    {
      ChargeLosesExactly(c, s, a);
    }
  }

  /** After an unsafe release the agreement is lost, or the next delivery can lose it. */
  lemma UnsafeReleaseIsInsecure(c: Config, s: State, a: Action)
    requires LeaseCoversExecution(c.timing) && Leased(c, s) && Agreement(c, s)
    requires Enabled(c, s, a) && UnsafeRelease(s, a)
    ensures !Secure(c, After(c, s, a))
  {
    var key, v := s.execs[a.i].key, After(c, s, a);
    StepLosesExactly(c, s, a);
    if key !in s.records {
      var m :| m in s.wire && m.key == key;
      var late := ProviderHandles(m, Some([]), Approved([]));
      assert LeaseGood(c, s, a.i);
      assert Enabled(c, v, late) && ChargesAstray(c, v, late);
      ChargeLosesExactly(c, v, late);
    }
  }

  lemma SecureStepIsSafe(c: Config, states: seq<State>, actions: seq<Action>, m: nat)
    requires LeaseCoversExecution(c.timing) && TimelyRun(c, states, actions) && m < |actions|
    requires Secure(c, states[m]) && Secure(c, states[m + 1])
    ensures !UnsafeRelease(states[m], actions[m])
  {
    LeasedAlways(c, states, actions, m);
    if UnsafeRelease(states[m], actions[m]) {
      UnsafeReleaseIsInsecure(c, states[m], actions[m]);
    }
  }

  /** The condition on releases is exact: a run is secure throughout if and only if it meets it. */
  lemma SafeReleasesExactly(c: Config, states: seq<State>, actions: seq<Action>)
    requires AcceptedTiming(c.timing) && TimelyRun(c, states, actions)
    ensures (forall n :: 0 <= n < |states| ==> Secure(c, states[n])) <==>
            (forall m :: 0 <= m < |actions| ==> !UnsafeRelease(states[m], actions[m]))
  {
    if forall m :: 0 <= m < |actions| ==> !UnsafeRelease(states[m], actions[m]) {
      forall n | 0 <= n < |states|
        ensures Secure(c, states[n])
      {
        SafeReleasesKeepAgreement(c, states, actions, n);
        BackedIsSecure(c, states[n]);
      }
    }
    if forall n :: 0 <= n < |states| ==> Secure(c, states[n]) {
      forall m | 0 <= m < |actions|
        ensures !UnsafeRelease(states[m], actions[m])
      {
        SecureStepIsSafe(c, states, actions, m);
      }
    }
  }

  /** A claim that was reclaimed is given back. */
  predicate ReleasesReclaimed(s: State, a: Action) {
    a.Release? && a.i in s.execs && s.execs[a.i].reclaimed
  }

  // ---- Where a stray charge comes from -------------------------------------------------------

  /** The claim on the request's key is given back while the request is under way. */
  predicate ReleasedUnder(s: State, a: Action, m: Sent) {
    a.Release? && a.i in s.execs && s.execs[a.i].key == m.key && m in s.wire
  }

  lemma {:induction false} RowOrRelease(c: Config, states: seq<State>, actions: seq<Action>, n: nat, m: Sent)
    requires LeaseCoversExecution(c.timing) && TimelyRun(c, states, actions) && n < |states| && m in states[n].wire
    ensures HasRow(c, states[n].tables, m.key, m.payload) ||
            exists k :: 0 <= k < n && ReleasedUnder(states[k], actions[k], m)
  {
    if n > 0 {
      LeasedAlways(c, states, actions, n - 1);
      assert Enabled(c, states[n - 1], actions[n - 1]);
      if m !in states[n - 1].wire {
        SentWithRow(c, states[n - 1], actions[n - 1], m);
      } else if !ReleasedUnder(states[n - 1], actions[n - 1], m) {
        RowOrRelease(c, states, actions, n - 1, m);
        if HasRow(c, states[n - 1].tables, m.key, m.payload) {
          RowStays(c, states[n - 1], actions[n - 1], m);
        }
      }
    }
  }

  /** A key is charged astray only after it was released while that very request was under way. */
  lemma StrayChargeNeedsEarlierRelease(c: Config, states: seq<State>, actions: seq<Action>, n: nat)
    requires AcceptedTiming(c.timing) && TimelyRun(c, states, actions) && n < |actions|
    requires ChargesAstray(c, states[n], actions[n])
    ensures exists k :: 0 <= k < n && ReleasedUnder(states[k], actions[k], actions[n].sent)
  {
    assert Enabled(c, states[n], actions[n]);
    RowOrRelease(c, states, actions, n, actions[n].sent);
  }

  // ---- A provider that answers while it is waited for ----------------------------------------

  /** The provider handles a request while its sender still waits for it. */
  predicate Prompt(s: State, a: Action) {
    a.ProviderHandles? ==> Awaited(s, a.sent)
  }

  /** Messages on the wire carry their sender's key and payload. */
  predicate WireGood(s: State, m: Sent) {
    m.execution in s.execs && m.key == s.execs[m.execution].key && m.payload == s.execs[m.execution].input
  }

  ghost predicate WireOk(s: State) {
    forall m :: m in s.wire ==> WireGood(s, m)
  }

  predicate Rejection(reply: Reply) {
    reply.Failed? && reply.error.Rejected?
  }

  /** An execution that was told of a rejection has an uncharged key. */
  predicate UnchargedWhenRejected(s: State, i: nat)
    requires i in s.execs
  {
    var e := s.execs[i];
    && (e.phase.Calling? && e.phase.reply.Some? && Rejection(e.phase.reply.value) ==> e.key !in s.records)
    && (e.phase.Releasing? && e.phase.error.Rejected? ==> e.key !in s.records)
  }

  /** So has a claim won on an absent row that has called nobody yet, and a refused one. */
  predicate UnchargedWhenFresh(s: State, i: nat)
    requires i in s.execs
  {
    var e := s.execs[i];
    && (e.phase.Claimed? && !e.reclaimed ==> e.key !in s.records)
    && (e.phase == Releasing(CircuitOpen) ==> e.key !in s.records)
  }

  predicate ReleasesUnambiguously(e: Execution) {
    && (e.phase.Releasing? ==> ReleasesClaim(e.phase.error))
    && (e.phase.Calling? ==> e.phase.reply != Some(Failed(CircuitOpen)))
  }

  ghost predicate RejectionsOk(s: State) {
    && WireOk(s)
    && forall i :: i in s.execs ==> UnchargedWhenRejected(s, i) && ReleasesUnambiguously(s.execs[i])
  }

  ghost predicate FreshOk(s: State) {
    forall i :: i in s.execs ==> UnchargedWhenFresh(s, i)
  }

  /** The failing family: the breaker refused the claim, yet the key is already charged. */
  predicate RefusedAfterCharge(s: State, a: Action) {
    && a.Release? && a.i in s.execs && s.execs[a.i].phase == Releasing(CircuitOpen)
    && s.execs[a.i].key in s.records
  }

  /** A reclaimed claim is turned away by the breaker. */
  predicate RefusesReclaimed(c: Config, s: State, a: Action) {
    && a.AskBreaker? && a.i in s.execs && s.execs[a.i].reclaimed
    && Acquire(c.breaker, BreakerOf(s, s.execs[a.i].replica), s.now).1.None?
  }

  ghost predicate PromptRun(c: Config, states: seq<State>, actions: seq<Action>) {
    && TimelyRun(c, states, actions)
    && forall n :: 0 <= n < |actions| ==> Prompt(states[n], actions[n])
  }

  /** Under the lease, a prompt charge goes to the holder's own row, and nobody else holds that key. */
  lemma PromptChargeIsHolders(c: Config, s: State, a: Action, x: nat)
    requires Retry(c).maxAttempts >= 1 && Leased(c, s) && WireOk(s)
    requires Enabled(c, s, a) && a.ProviderHandles? && Prompt(s, a)
    ensures a.sent.key in s.tables.operations
    ensures s.tables.operations[a.sent.key].fingerprint == c.fingerprint(a.sent.payload)
    ensures x in s.execs && Holding(s.execs[x]) && s.execs[x].key == a.sent.key ==> x == a.sent.execution
  {
    assert WireGood(s, a.sent);
    assert LeaseGood(c, s, a.sent.execution);
  }

  lemma WireKept(c: Config, s: State, a: Action)
    requires Enabled(c, s, a) && WireOk(s)
    ensures WireOk(After(c, s, a))
  {
    var v := After(c, s, a);
    forall m | m in v.wire
      ensures WireGood(v, m)
    {
      if m in s.wire {
        assert WireGood(s, m);
        StepKeepsRequest(c, s, a, m.execution);
      }
    }
  }

  lemma ProviderKeepsRejections(c: Config, s: State, a: Action, x: nat)
    requires Retry(c).maxAttempts >= 1 && Leased(c, s) && RejectionsOk(s)
    requires Enabled(c, s, a) && a.ProviderHandles? && Prompt(s, a) && x in s.execs
    ensures var v := After(c, s, a);
      UnchargedWhenRejected(v, x) && ReleasesUnambiguously(v.execs[x])
  {
    assert UnchargedWhenRejected(s, x) && ReleasesUnambiguously(s.execs[x]);
    PromptChargeIsHolders(c, s, a, x);
  }

  lemma AttemptKeepsRejections(c: Config, s: State, a: Action)
    requires Enabled(c, s, a) && (a.Receive? || a.LoseReply?)
    requires UnchargedWhenRejected(s, a.i) && ReleasesUnambiguously(s.execs[a.i])
    ensures var v := After(c, s, a);
      UnchargedWhenRejected(v, a.i) && ReleasesUnambiguously(v.execs[a.i])
  {}

  lemma OtherStepKeepsRejections(c: Config, s: State, a: Action)
    requires Enabled(c, s, a) && !a.ProviderHandles? && !a.Tick? && !a.Receive? && !a.LoseReply?
    ensures var v := After(c, s, a);
      UnchargedWhenRejected(v, a.i) && ReleasesUnambiguously(v.execs[a.i])
  {}

  lemma RejectionsKeptAt(c: Config, s: State, a: Action, x: nat)
    requires Retry(c).maxAttempts >= 1 && Leased(c, s) && RejectionsOk(s) && Enabled(c, s, a) && Prompt(s, a)
    requires x in After(c, s, a).execs
    ensures UnchargedWhenRejected(After(c, s, a), x) && ReleasesUnambiguously(After(c, s, a).execs[x])
  {
    assert x in s.execs ==> UnchargedWhenRejected(s, x) && ReleasesUnambiguously(s.execs[x]);
    if a.ProviderHandles? {
      ProviderKeepsRejections(c, s, a, x);
    } else if !a.Tick? {
      StepTouchesOne(c, s, a);
      if x == a.i && (a.Receive? || a.LoseReply?) {
        AttemptKeepsRejections(c, s, a);
      } else if x == a.i {
        OtherStepKeepsRejections(c, s, a);
      }
    }
  }

  lemma RejectionsKept(c: Config, s: State, a: Action)
    requires Retry(c).maxAttempts >= 1 && Leased(c, s) && RejectionsOk(s) && Enabled(c, s, a) && Prompt(s, a)
    ensures RejectionsOk(After(c, s, a))
  {
    WireKept(c, s, a);
    forall x | x in After(c, s, a).execs
      ensures UnchargedWhenRejected(After(c, s, a), x) && ReleasesUnambiguously(After(c, s, a).execs[x])
    {
      RejectionsKeptAt(c, s, a, x);
    }
  }

  /** To a prompt provider the only release of a charged key is that of a refused claim. */
  lemma PromptReleaseIsRefusal(c: Config, s: State, a: Action)
    requires Retry(c).maxAttempts >= 1 && Leased(c, s) && RejectionsOk(s)
    requires Enabled(c, s, a) && Prompt(s, a)
    ensures ReleasesCharged(s, a) <==> RefusedAfterCharge(s, a)
    ensures !ChargesAstray(c, s, a)
  {
    if a.Release? {
      assert UnchargedWhenRejected(s, a.i) && ReleasesUnambiguously(s.execs[a.i]);
    } else if a.ProviderHandles? {
      PromptChargeIsHolders(c, s, a, 0);
    }
  }

  lemma {:induction false} RejectionsAlwaysOk(c: Config, states: seq<State>, actions: seq<Action>, n: nat)
    requires LeaseCoversExecution(c.timing) && PromptRun(c, states, actions) && n < |states|
    ensures Leased(c, states[n]) && RejectionsOk(states[n])
  {
    LeasedAlways(c, states, actions, n);
    if n > 0 {
      RejectionsAlwaysOk(c, states, actions, n - 1);
      assert Prompt(states[n - 1], actions[n - 1]);
      RejectionsKept(c, states[n - 1], actions[n - 1]);
    }
  }

  /**
   * With a prompt provider the agreement holds along a run if and only if no claim that the breaker
   * refused is given back while its key is charged.
   */
  lemma PromptAgreementExactly(c: Config, states: seq<State>, actions: seq<Action>)
    requires AcceptedTiming(c.timing) && PromptRun(c, states, actions)
    ensures (forall n :: 0 <= n < |states| ==> Agreement(c, states[n])) <==>
            (forall m :: 0 <= m < |actions| ==> !RefusedAfterCharge(states[m], actions[m]))
  {
    PayloadAgreementExactly(c, states, actions);
    forall m | 0 <= m < |actions|
      ensures ReleasesCharged(states[m], actions[m]) <==> RefusedAfterCharge(states[m], actions[m])
      ensures !ChargesAstray(c, states[m], actions[m])
    {
      RejectionsAlwaysOk(c, states, actions, m);
      assert Prompt(states[m], actions[m]);
      PromptReleaseIsRefusal(c, states[m], actions[m]);
    }
  }

  // ---- A condition the caller can see --------------------------------------------------------

  /** An absent row means an uncharged key. */
  lemma InsertKeepsFresh(c: Config, s: State, i: nat)
    requires Agreement(c, s) && Enabled(c, s, InsertRow(i))
    ensures UnchargedWhenFresh(AfterInsert(c, s, i), i)
  {
    if s.execs[i].key in s.records {
      assert KeyAgrees(c, s, s.execs[i].key);
    }
  }

  lemma AttemptKeepsFresh(c: Config, s: State, a: Action)
    requires Enabled(c, s, a) && (a.Receive? || a.LoseReply?) && ReleasesUnambiguously(s.execs[a.i])
    ensures UnchargedWhenFresh(After(c, s, a), a.i)
  {}

  lemma OwnStepKeepsFresh(c: Config, s: State, a: Action)
    requires Agreement(c, s) && Enabled(c, s, a) && !a.ProviderHandles? && !a.Tick? && !RefusesReclaimed(c, s, a)
    requires !a.Arrive? ==> UnchargedWhenFresh(s, a.i) && ReleasesUnambiguously(s.execs[a.i])
    ensures a.i in After(c, s, a).execs && UnchargedWhenFresh(After(c, s, a), a.i)
  {
    if a.InsertRow? {
      InsertKeepsFresh(c, s, a.i);
    } else if a.Receive? || a.LoseReply? {
      AttemptKeepsFresh(c, s, a);
    }
  }

  lemma ProviderKeepsFresh(c: Config, s: State, a: Action, x: nat)
    requires Retry(c).maxAttempts >= 1 && Leased(c, s) && WireOk(s)
    requires Enabled(c, s, a) && a.ProviderHandles? && Prompt(s, a)
    requires x in s.execs && UnchargedWhenFresh(s, x)
    ensures UnchargedWhenFresh(After(c, s, a), x)
  {
    PromptChargeIsHolders(c, s, a, x);
  }

  lemma FreshKept(c: Config, s: State, a: Action)
    requires Retry(c).maxAttempts >= 1 && Leased(c, s) && RejectionsOk(s) && FreshOk(s) && Agreement(c, s)
    requires Enabled(c, s, a) && Prompt(s, a) && !RefusesReclaimed(c, s, a)
    ensures FreshOk(After(c, s, a))
  {
    var v := After(c, s, a);
    if !a.Tick? && !a.ProviderHandles? {
      StepTouchesOne(c, s, a);
    }
    forall x | x in v.execs
      ensures UnchargedWhenFresh(v, x)
    {
      if x in s.execs {
        assert UnchargedWhenFresh(s, x) && ReleasesUnambiguously(s.execs[x]);
      }
      if a.ProviderHandles? {
        ProviderKeepsFresh(c, s, a, x);
      } else if !a.Tick? && x == a.i {
        OwnStepKeepsFresh(c, s, a);
      }
    }
  }

  /**
   * With a prompt provider, and if no reclaimed claim is ever refused by the breaker, every charged
   * key has a row with the charged payload's fingerprint.
   */
  lemma {:induction false} PromptAgreement(c: Config, states: seq<State>, actions: seq<Action>, n: nat)
    requires AcceptedTiming(c.timing) && PromptRun(c, states, actions) && n < |states|
    requires forall m :: 0 <= m < n ==> !RefusesReclaimed(c, states[m], actions[m])
    ensures Agreement(c, states[n]) && FreshOk(states[n])
  {
    if n > 0 {
      PromptAgreement(c, states, actions, n - 1);
      RejectionsAlwaysOk(c, states, actions, n - 1);
      var s, a := states[n - 1], actions[n - 1];
      assert Prompt(s, a) && !RefusesReclaimed(c, s, a);
      assert a.Release? ==> UnchargedWhenFresh(s, a.i);
      PromptReleaseIsRefusal(c, s, a);
      StepLosesExactly(c, s, a);
      FreshKept(c, s, a);
    }
  }

  /** Then the stored transaction of a charged key is for the payload that was charged. */
  lemma StoredIsCharged(c: Config, s: State, key: Key)
    requires Safe(c, s) && Agreement(c, s) && key in s.records
    requires key in s.tables.operations && s.tables.operations[key].status.Completed?
    ensures var id := s.tables.operations[key].transactionId.value;
      && id in s.tables.transactions
      && c.fingerprint(s.tables.transactions[id].Payload()) == c.fingerprint(s.records[key].payload)
      && s.tables.transactions[id].providerTransactionId == s.records[key].providerTransactionId
  {
    assert RowGood(c, s, key) && KeyAgrees(c, s, key);
  }
}
