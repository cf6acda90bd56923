/** One result per key: the guarantees a caller sees, over every run. */
module ProtocolResults {
  import opened Domain
  import opened Store
  import opened Protocol
  import opened ProtocolSafety
  import ClaimLinearization

  predicate Succeeded(s: State, i: nat, key: Key, transaction: Transaction) {
    && i in s.execs && s.execs[i].key == key
    && (s.execs[i].phase == Answered(Created(transaction)) || s.execs[i].phase == Answered(Replayed(transaction)))
  }

  ghost predicate TablesKeep(t: Tables, u: Tables) {
    && (forall k :: k in t.operations && t.operations[k].status.Completed? ==>
          k in u.operations && u.operations[k] == t.operations[k])
    && (forall id :: id in t.transactions ==> id in u.transactions && u.transactions[id] == t.transactions[id])
  }

  /** Records, completed rows, stored transactions and given answers stay as they are. */
  ghost predicate Keeps(s: State, v: State) {
    && (forall k :: k in s.records ==> k in v.records && v.records[k] == s.records[k])
    && TablesKeep(s.tables, v.tables)
    && (forall i :: i in s.execs ==> i in v.execs && v.execs[i].key == s.execs[i].key)
    && (forall i :: i in s.execs && s.execs[i].phase.Answered? ==> i in v.execs && v.execs[i] == s.execs[i])
  }

  lemma TableStepKeeps(c: Config, s: State, a: Action)
    requires Enabled(c, s, a)
    requires a.InsertRow? || a.ReclaimRow? || a.Release? || a.Commit?
    ensures TablesKeep(s.tables, After(c, s, a).tables)
  {}

  lemma OtherStepKeepsTables(c: Config, s: State, a: Action)
    requires Enabled(c, s, a)
    requires !(a.InsertRow? || a.ReclaimRow? || a.Release? || a.Commit?)
    ensures After(c, s, a).tables == s.tables
  {}

  lemma StepKeeps(c: Config, s: State, a: Action)
    requires Enabled(c, s, a)
    ensures Keeps(s, After(c, s, a))
  {
    var v := After(c, s, a);
    if a.InsertRow? || a.ReclaimRow? || a.Release? || a.Commit? {
      TableStepKeeps(c, s, a);
    } else {
      OtherStepKeepsTables(c, s, a);
    }
    if !a.Tick? && !a.ProviderHandles? {
      StepTouchesOne(c, s, a);
    }
    forall i | i in s.execs
      ensures i in v.execs && v.execs[i].key == s.execs[i].key
    {
      StepKeepsRequest(c, s, a, i);
    }
    forall i | i in s.execs && s.execs[i].phase.Answered?
      ensures i in v.execs && v.execs[i] == s.execs[i]
    {
      DeadStaysDead(c, s, a, i);
    }
  }

  lemma KeepsIsTransitive(s: State, u: State, v: State)
    requires Keeps(s, u) && Keeps(u, v)
    ensures Keeps(s, v)
  {}

  lemma RunStepKeeps(c: Config, states: seq<State>, actions: seq<Action>, n: nat)
    requires Run(c, states, actions) && n < |actions|
    ensures Keeps(states[n], states[n + 1])
  {
    StepKeeps(c, states[n], actions[n]);
  }

  ghost predicate EachKeeps(states: seq<State>) {
    forall k :: 0 <= k < |states| - 1 ==> Keeps(states[k], states[k + 1])
  }

  lemma {:induction false} KeptAllAlong(states: seq<State>, n: nat, m: nat)
    requires EachKeeps(states) && n <= m < |states|
    ensures Keeps(states[n], states[m])
  {
    if n < m {
      KeptAllAlong(states, n, m - 1);
      assert states[m - 1 + 1] == states[m];
      KeepsIsTransitive(states[n], states[m - 1], states[m]);
    }
  }

  /** `completed` is absorbing; nothing stored, charged or answered is ever taken back. */
  lemma SettledIsForever(c: Config, states: seq<State>, actions: seq<Action>, n: nat, m: nat)
    requires Run(c, states, actions) && n <= m < |states|
    ensures Keeps(states[n], states[m])
  {
    forall k | 0 <= k < |states| - 1
      ensures Keeps(states[k], states[k + 1])
    {
      RunStepKeeps(c, states, actions, k);
    }
    KeptAllAlong(states, n, m);
  }

  /** At most one execution per key ever answers `created: true`. */
  lemma CreatedAtMostOnce(c: Config, states: seq<State>, actions: seq<Action>, n: nat, i: nat, j: nat)
    requires Run(c, states, actions) && n < |states| && c.timing.processingStaleTimeoutMs >= 0
    requires i in states[n].execs && j in states[n].execs && states[n].execs[i].key == states[n].execs[j].key
    requires states[n].execs[i].phase.Answered? && states[n].execs[i].phase.answer.Created?
    requires states[n].execs[j].phase.Answered? && states[n].execs[j].phase.answer.Created?
    ensures i == j
  {
    SafeAlways(c, states, actions, n);
    assert ExecGood(c, states[n], i) && ExecGood(c, states[n], j);
  }

  /** All successful answers for a key, whenever given, carry the same transaction. */
  lemma OneTransactionPerKey(c: Config, states: seq<State>, actions: seq<Action>, n: nat, m: nat,
                             i: nat, j: nat, key: Key, x: Transaction, y: Transaction)
    requires Run(c, states, actions) && n <= m < |states| && c.timing.processingStaleTimeoutMs >= 0
    requires Succeeded(states[n], i, key, x) && Succeeded(states[m], j, key, y)
    ensures x == y
  {
    SettledIsForever(c, states, actions, n, m);
    SafeAlways(c, states, actions, m);
    assert ExecGood(c, states[m], i) && ExecGood(c, states[m], j);
  }

  /**
   * A successful answer shows a stored transaction whose payload has the caller's fingerprint, and
   * whose provider id is the provider's only record of the key, now and at every later time.
   */
  lemma AnswersAreFaithful(c: Config, states: seq<State>, actions: seq<Action>, n: nat, m: nat,
                           i: nat, key: Key, x: Transaction)
    requires Run(c, states, actions) && n <= m < |states| && c.timing.processingStaleTimeoutMs >= 0
    requires Succeeded(states[n], i, key, x)
    ensures c.fingerprint(x.Payload()) == c.fingerprint(states[n].execs[i].input)
    ensures key in states[m].records && states[m].records[key].providerTransactionId == x.providerTransactionId
    ensures x.id in states[m].tables.transactions && states[m].tables.transactions[x.id] == x
  {
    SettledIsForever(c, states, actions, n, m);
    SafeAlways(c, states, actions, n);
    assert ExecGood(c, states[n], i);
  }

  /** The claim never finds a completed row without its transaction. */
  lemma NoMissingTransaction(c: Config, states: seq<State>, actions: seq<Action>, n: nat, i: nat)
    requires Run(c, states, actions) && n < |states| && c.timing.processingStaleTimeoutMs >= 0
    requires i in states[n].execs
    ensures states[n].execs[i].phase != Answered(ClaimBroken(MissingTransaction))
  {
    SafeAlways(c, states, actions, n);
    assert ExecGood(c, states[n], i);
  }

  /** Completed operations and stored transactions correspond one to one. */
  lemma CompletedOperationsMatchTransactions(c: Config, states: seq<State>, actions: seq<Action>, n: nat)
    requires Run(c, states, actions) && n < |states| && c.timing.processingStaleTimeoutMs >= 0
    ensures var t := states[n].tables;
      && Constrained(t)
      && (forall id :: id in t.transactions ==>
            exists k :: k in t.operations && t.operations[k].status.Completed?
                        && t.operations[k].transactionId == Some(id))
  {
    SafeAlways(c, states, actions, n);
    var s := states[n];
    forall k | k in s.tables.operations
      ensures RowOk(s.tables, s.tables.operations[k])
    {
      assert RowGood(c, s, k);
    }
    forall j, k | j in s.tables.operations && k in s.tables.operations
      && SameTransaction(s.tables.operations[j], s.tables.operations[k])
      ensures j == k
    {
      assert RowGood(c, s, j) && RowGood(c, s, k);
    }
    forall id | id in s.tables.transactions
      ensures s.tables.transactions[id].id == id
      ensures exists k :: k in s.tables.operations && s.tables.operations[k].status.Completed?
                          && s.tables.operations[k].transactionId == Some(id)
    {
      assert TransactionGood(s, id);
      assert RowGood(c, s, s.issued[id].key);
    }
  }

  // ---- What a step does to the tables --------------------------------------------------------

  /** The statement a step commits, as other sessions see it. */
  ghost function Effect(c: Config, s: State, a: Action): seq<ClaimLinearization.DbAction>
    requires Enabled(c, s, a)
  {
    match a
    case InsertRow(i) => [ClaimLinearization.Inserts(RequestOf(c, s.execs[i]))]
    case ReclaimRow(i) => [ClaimLinearization.Reclaims(RequestOf(c, s.execs[i]))]
    case Commit(i) => [ClaimLinearization.Completes(CompletionOf(c, s.execs[i]))]
    case Release(i) => [ClaimLinearization.Releases(s.execs[i].key, c.fingerprint(s.execs[i].input))]
    case _ => []
  }

  /** The interference a claim is proved against is exactly what other executions do. */
  lemma StepsAreDbActions(c: Config, s: State, a: Action)
    requires Enabled(c, s, a)
    ensures After(c, s, a).tables == ClaimLinearization.PerformAll(s.tables, Effect(c, s, a))
  {
    if Effect(c, s, a) != [] {
      assert Effect(c, s, a)[1..] == [];
    }
  }
}
