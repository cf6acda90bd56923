/** What becomes of an approval: from the provider's answer to the caller's, and to every later caller's. */
module ProtocolApprovals {
  import opened Domain
  import opened RetryPolicy
  import opened BreakerModel
  import opened Store
  import opened Protocol
  import opened ProtocolLease
  import opened ProtocolRuns
  import opened ProtocolWitness

  /** On its way to answer with a transaction of its own payload and this provider id, or dead. */
  predicate OnTheWay(e: Execution, providerId: Text) {
    match e.phase
    case Settling(id) => id == providerId
    case Completing(tx, _) => tx.Payload() == e.input && tx.providerTransactionId == providerId
    case Committed(tx) => tx.Payload() == e.input && tx.providerTransactionId == providerId
    case Answered(answer) =>
      answer.Created? &&
      answer.transaction.Payload() == e.input && answer.transaction.providerTransactionId == providerId
    case Gone => true
    case _ => false
  }

  /** An approval that is received is an approval: no branch turns it into anything else. */
  lemma ApprovalIsReceived(c: Config, s: State, i: nat, random: real, providerId: Text)
    requires Enabled(c, s, Receive(i, random)) && s.execs[i].phase.reply == Some(Approved(providerId))
    ensures i in After(c, s, Receive(i, random)).execs
    ensures OnTheWay(After(c, s, Receive(i, random)).execs[i], providerId)
  {}

  lemma MoverStaysOnTheWay(c: Config, s: State, a: Action, providerId: Text)
    requires LeaseCoversExecution(c.timing) && Leased(c, s) && Enabled(c, s, a)
    requires !a.Tick? && !a.ProviderHandles? && !a.Arrive? && OnTheWay(s.execs[a.i], providerId)
    ensures a.i in After(c, s, a).execs && OnTheWay(After(c, s, a).execs[a.i], providerId)
  {
    if a.Commit? {
      HolderCompletes(c, s, a.i);
    }
  }

  lemma StaysOnTheWay(c: Config, s: State, a: Action, i: nat, providerId: Text)
    requires LeaseCoversExecution(c.timing) && Leased(c, s) && Enabled(c, s, a)
    requires i in s.execs && OnTheWay(s.execs[i], providerId)
    ensures i in After(c, s, a).execs && OnTheWay(After(c, s, a).execs[i], providerId)
  {
    if !Live(s.execs[i]) {
      DeadStaysDead(c, s, a, i);
    } else if !a.Tick? && !a.ProviderHandles? {
      StepTouchesOne(c, s, a);
      if a.i == i {
        MoverStaysOnTheWay(c, s, a, providerId);
      }
    }
  }

  lemma {:induction false} StillOnTheWay(c: Config, states: seq<State>, actions: seq<Action>, n: nat, m: nat,
                                         i: nat, providerId: Text)
    requires LeaseCoversExecution(c.timing) && TimelyRun(c, states, actions) && n <= m < |states|
    requires i in states[n].execs && OnTheWay(states[n].execs[i], providerId)
    ensures i in states[m].execs && OnTheWay(states[m].execs[i], providerId)
  {
    if n < m {
      StillOnTheWay(c, states, actions, n, m - 1, i, providerId);
      LeasedAlways(c, states, actions, m - 1);
      var s, a := states[m - 1], actions[m - 1];
      assert Enabled(c, s, a) && states[m] == After(c, s, a);
      StaysOnTheWay(c, s, a, i, providerId);
    }
  }

  /**
   * No lost approval, from the reply on. In a timely run, an execution that receives an approval is,
   * ever after, dead or on its way to `created: true` with that provider id and its own payload.
   */
  lemma ApprovedIsCreated(c: Config, states: seq<State>, actions: seq<Action>, n: nat, m: nat,
                          i: nat, random: real, providerId: Text)
    requires AcceptedTiming(c.timing) && TimelyRun(c, states, actions) && n < m < |states|
    requires actions[n] == Receive(i, random) && i in states[n].execs && states[n].execs[i].phase.Calling?
    requires states[n].execs[i].phase.reply == Some(Approved(providerId))
    ensures i in states[m].execs && OnTheWay(states[m].execs[i], providerId)
  {
    assert Enabled(c, states[n], actions[n]) && states[n + 1] == After(c, states[n], actions[n]);
    ApprovalIsReceived(c, states[n], i, random, providerId);
    StillOnTheWay(c, states, actions, n + 1, m, i, providerId);
  }

  // ---- Approvals do happen -------------------------------------------------------------------

  const ID: Id := 7

  function Stored(x: TransactionInput, providerId: Text, at: int): Transaction {
    Transaction(ID, x.amount, x.currency, x.description, providerId, at)
  }

  function Done(c: Config, x: TransactionInput, providerId: Text, at: int): Tables {
    Tables(map[K := Operation(c.fingerprint(x), Completed, Some(ID), 0, at)], map[ID := Stored(x, providerId, at)])
  }

  /** The first execution has its approval. */
  lemma ApprovedIsReached(c: Config, x: TransactionInput, id: Text) returns (states: seq<State>, actions: seq<Action>)
    ensures ManneredRun(c, STRICT, states, actions)
    ensures Last(states) == State(0, Row(c, x, 0), map[K := Charge(x, id)], {}, map[0 := INITIAL], map[],
                                  map[0 := Exec(x, 0, false, Settling(id))])
  {
    states, actions := FirstCallIsReached(c, x);
    states, actions := Extend(c, STRICT, states, actions, ProviderHandles(Sent(0, 1, K, x), Some(id), Approved(id)));
    states, actions := Extend(c, STRICT, states, actions, Receive(0, 0.0));
  }

  lemma CreatedIsReached(c: Config, x: TransactionInput, id: Text) returns (states: seq<State>, actions: seq<Action>)
    ensures ManneredRun(c, STRICT, states, actions)
    ensures Last(states) ==
      State(0, Done(c, x, id, 0), map[K := Charge(x, id)], {}, map[0 := INITIAL], map[ID := Owner(0, K)],
            map[0 := Exec(x, 0, false, Answered(Created(Stored(x, id, 0))))])
  {
    states, actions := ApprovedIsReached(c, x, id);
    states, actions := Extend(c, STRICT, states, actions, IssueId(0, ID));
    states, actions := Extend(c, STRICT, states, actions, Action.Commit(0));
    states, actions := Extend(c, STRICT, states, actions, Respond(0));
  }

  /** In some run one execution answers `created: true`, and the next one replays its transaction. */
  lemma SuccessAndReplay(c: Config, x: TransactionInput, id: Text) returns (states: seq<State>, actions: seq<Action>)
    ensures TimelyRun(c, states, actions)
    ensures 0 in Last(states).execs && Last(states).execs[0].phase == Answered(Created(Stored(x, id, 0)))
    ensures 1 in Last(states).execs && Last(states).execs[1].phase == Answered(Replayed(Stored(x, id, 0)))
  {
    states, actions := CreatedIsReached(c, x, id);
    states, actions := Extend(c, STRICT, states, actions, Arrive(1, K, x, 0));
    states, actions := Extend(c, STRICT, states, actions, InsertRow(1));
    states, actions := Extend(c, STRICT, states, actions, ReclaimRow(1));
    states, actions := Extend(c, STRICT, states, actions, SelectRow(1));
    MannersMean(c, STRICT, states, actions);
  }

  // ---- And are recovered ---------------------------------------------------------------------

  /** One attempt; one failure does not open the breaker. */
  predicate TwoStrikes(c: Config) {
    && c.timing == TimingConfig(RetryConfig(1, 1000, 0, 0, 0.0), 0, 2000, 1)
    && c.breaker == BreakerConfig(2, 10000)
  }

  const STRUCK := INITIAL.(consecutiveFailures := 1)

  lemma UnheardApproval(c: Config, x: TransactionInput, id: Text) returns (states: seq<State>, actions: seq<Action>)
    requires TwoStrikes(c)
    ensures ManneredRun(c, STRICT, states, actions)
    ensures Last(states) ==
      State(0, Row(c, x, 0), map[K := Charge(x, id)], {}, map[0 := STRUCK], map[], map[0 := Exec(x, 0, false, LOST)])
  {
    states, actions := FirstCallIsReached(c, x);
    states, actions := Extend(c, STRICT, states, actions, ProviderHandles(Sent(0, 1, K, x), Some(id), Approved(id)));
    states, actions := Extend(c, STRICT, states, actions, LoseReply(0, NetworkFailed, 0.0));
  }

  /** The second execution has reclaimed the key. */
  function TakenOver(c: Config, x: TransactionInput, id: Text, wire: set<Sent>, phase: Phase): State {
    State(2000, Row(c, x, 2000), map[K := Charge(x, id)], wire, map[0 := STRUCK], map[],
          map[0 := Exec(x, 0, false, LOST), 1 := Exec(x, 2000, true, phase)])
  }

  lemma KeyIsReclaimed(c: Config, x: TransactionInput, id: Text) returns (states: seq<State>, actions: seq<Action>)
    requires TwoStrikes(c)
    ensures ManneredRun(c, STRICT, states, actions)
    ensures Last(states) == TakenOver(c, x, id, {}, Claimed)
  {
    states, actions := UnheardApproval(c, x, id);
    states, actions := Extend(c, STRICT, states, actions, Tick(2000));
    states, actions := Extend(c, STRICT, states, actions, Arrive(1, K, x, 0));
    states, actions := Extend(c, STRICT, states, actions, InsertRow(1));
    states, actions := Extend(c, STRICT, states, actions, ReclaimRow(1));
  }

  lemma RecordIsAnswered(c: Config, x: TransactionInput, id: Text) returns (states: seq<State>, actions: seq<Action>)
    requires TwoStrikes(c)
    ensures ManneredRun(c, STRICT, states, actions)
    ensures Last(states) ==
      TakenOver(c, x, id, {}, Calling(PERMIT, 1, 2000, Some(Approved(id))))
  {
    states, actions := KeyIsReclaimed(c, x, id);
    states, actions := Extend(c, STRICT, states, actions, AskBreaker(1));
    assert Last(states) == TakenOver(c, x, id, {Sent(1, 1, K, x)}, Calling(PERMIT, 1, 2000, None));
    states, actions := Extend(c, STRICT, states, actions, ProviderHandles(Sent(1, 1, K, x), None, Approved(id)));
  }

  /**
   * In some run an approval whose answer was lost is recovered after the lease: the second execution
   * gets the first one's provider id and answers `created: true` with it.
   */
  lemma LostApprovalIsRecovered(c: Config, x: TransactionInput, id: Text)
    returns (states: seq<State>, actions: seq<Action>)
    requires TwoStrikes(c)
    ensures TimelyRun(c, states, actions)
    ensures K in Last(states).records && Last(states).records[K] == Charge(x, id)
    ensures 1 in Last(states).execs && Last(states).execs[1].phase == Answered(Created(Stored(x, id, 2000)))
  {
    states, actions := RecordIsAnswered(c, x, id);
    states, actions := Extend(c, STRICT, states, actions, Receive(1, 0.0));
    states, actions := Extend(c, STRICT, states, actions, IssueId(1, ID));
    states, actions := Extend(c, STRICT, states, actions, Action.Commit(1));
    states, actions := Extend(c, STRICT, states, actions, Respond(1));
    MannersMean(c, STRICT, states, actions);
  }
}
