/** What holds in every reachable state, for every interleaving and every timing. */
module ProtocolSafety {
  import opened Domain
  import opened Store
  import opened Protocol

  // ---- The invariant -------------------------------------------------------------------------

  predicate ChargedAs(s: State, key: Key, providerId: Text) {
    key in s.records && s.records[key].providerTransactionId == providerId
  }

  predicate OwnedBy(s: State, id: Id, i: nat, key: Key) {
    id in s.issued && s.issued[id] == Owner(i, key)
  }

  /** The row of `key` is completed with exactly this transaction. */
  predicate StoredAs(s: State, key: Key, transaction: Transaction) {
    && key in s.tables.operations
    && s.tables.operations[key].status.Completed?
    && s.tables.operations[key].transactionId == Some(transaction.id)
    && transaction.id in s.tables.transactions
    && s.tables.transactions[transaction.id] == transaction
  }

  /** A transaction a caller may be shown under `key` for `input`. */
  predicate Genuine(c: Config, s: State, key: Key, input: TransactionInput, transaction: Transaction) {
    && c.fingerprint(transaction.Payload()) == c.fingerprint(input)
    && ChargedAs(s, key, transaction.providerTransactionId)
  }

  /** Both directions of the bijection between completed rows and stored transactions, row by row. */
  predicate RowGood(c: Config, s: State, key: Key)
    requires key in s.tables.operations
  {
    var row := s.tables.operations[key];
    && row.createdAt <= row.updatedAt
    && (row.status.Completed? <==> row.transactionId.Some?)
    && (row.transactionId.Some? ==>
          var id := row.transactionId.value;
          && id in s.tables.transactions
          && id in s.issued && s.issued[id].key == key
          && c.fingerprint(s.tables.transactions[id].Payload()) == row.fingerprint
          && ChargedAs(s, key, s.tables.transactions[id].providerTransactionId))
  }

  predicate TransactionGood(s: State, id: Id)
    requires id in s.tables.transactions
  {
    && s.tables.transactions[id].id == id
    && id in s.issued
    && var key := s.issued[id].key;
       key in s.tables.operations && s.tables.operations[key].transactionId == Some(id)
  }

  ghost predicate TablesGood(c: Config, s: State) {
    && (forall key :: key in s.tables.operations ==> RowGood(c, s, key))
    && (forall id :: id in s.tables.transactions ==> TransactionGood(s, id))
  }

  /** What an execution's program counter says about the shared state. */
  predicate ExecGood(c: Config, s: State, i: nat)
    requires i in s.execs
  {
    var e := s.execs[i];
    && e.claimedAt <= s.now
    && match e.phase
       case Calling(_, _, _, reply) =>
         reply.Some? && reply.value.Approved? ==> ChargedAs(s, e.key, reply.value.providerTransactionId)
       case Settling(providerId) => ChargedAs(s, e.key, providerId)
       case Completing(tx, completedAt) =>
         && tx.Payload() == e.input && ChargedAs(s, e.key, tx.providerTransactionId)
         && OwnedBy(s, tx.id, i, e.key) && tx.id !in s.tables.transactions
         && e.claimedAt <= completedAt
       case Committed(tx) =>
         OwnedBy(s, tx.id, i, e.key) && StoredAs(s, e.key, tx) && Genuine(c, s, e.key, e.input, tx)
       case Answered(answer) =>
         (match answer
          case Created(tx) =>
            OwnedBy(s, tx.id, i, e.key) && StoredAs(s, e.key, tx) && Genuine(c, s, e.key, e.input, tx)
          case Replayed(tx) => StoredAs(s, e.key, tx) && Genuine(c, s, e.key, e.input, tx)
          case ClaimBroken(fault) => fault.ChangedDuringClaim?
          case _ => true)
       case _ => true
  }

  ghost predicate Safe(c: Config, s: State) {
    && TablesGood(c, s)
    && forall i :: i in s.execs ==> ExecGood(c, s, i)
  }

  // ---- What an execution's step may do to everything else ------------------------------------

  /** Nothing settled is undone, and only execution `i` adds transactions, under ids it owns. */
  ghost predicate Grows(s: State, v: State, i: nat) {
    && s.now <= v.now
    && (forall k :: k in s.records ==> k in v.records && v.records[k] == s.records[k])
    && (forall id :: id in s.issued ==> id in v.issued && v.issued[id] == s.issued[id])
    && (forall k :: k in s.tables.operations && s.tables.operations[k].status.Completed? ==>
          k in v.tables.operations && v.tables.operations[k] == s.tables.operations[k])
    && (forall id :: id in s.tables.transactions ==>
          id in v.tables.transactions && v.tables.transactions[id] == s.tables.transactions[id])
    && (forall id :: id in v.tables.transactions && id !in s.tables.transactions ==>
          id in s.issued && s.issued[id].execution == i)
  }

  lemma OthersUndisturbed(c: Config, s: State, v: State, i: nat, x: nat)
    requires Grows(s, v, i) && x != i && x in s.execs && ExecGood(c, s, x)
    requires x in v.execs && v.execs[x] == s.execs[x]
    ensures ExecGood(c, v, x)
  {}

  /** To keep `Safe`, a step of execution `i` has to grow the state, keep the tables and leave `i` good. */
  lemma SafeAfter(c: Config, s: State, v: State, i: nat)
    requires Safe(c, s) && Grows(s, v, i) && TablesGood(c, v)
    requires i in v.execs && ExecGood(c, v, i)
    requires v.execs.Keys == s.execs.Keys + {i}
    requires forall x :: x in s.execs && x != i ==> v.execs[x] == s.execs[x]
    ensures Safe(c, v)
  {
    forall x | x in v.execs
      ensures ExecGood(c, v, x)
    {
      if x != i {
        OthersUndisturbed(c, s, v, i, x);
      }
    }
  }

  lemma TablesUntouched(c: Config, s: State, v: State)
    requires TablesGood(c, s)
    requires v.tables == s.tables && v.records == s.records && v.issued == s.issued
    ensures TablesGood(c, v)
  {
    forall key | key in v.tables.operations
      ensures RowGood(c, v, key)
    {
      assert RowGood(c, s, key);
    }
    forall id | id in v.tables.transactions
      ensures TransactionGood(v, id)
    {
      assert TransactionGood(s, id);
    }
  }

  /** A step that leaves tables, records and ids alone only has to leave `i` good. */
  lemma SafeAfterLocal(c: Config, s: State, v: State, i: nat)
    requires Safe(c, s)
    requires v.tables == s.tables && v.records == s.records && v.issued == s.issued && v.now == s.now
    requires i in v.execs && ExecGood(c, v, i)
    requires v.execs.Keys == s.execs.Keys + {i}
    requires forall x :: x in s.execs && x != i ==> v.execs[x] == s.execs[x]
    ensures Safe(c, v)
  {
    TablesUntouched(c, s, v);
    SafeAfter(c, s, v, i);
  }

  // ---- One lemma for each kind of step -------------------------------------------------------

  lemma TickKeepsSafe(c: Config, s: State, ms: nat)
    requires Safe(c, s)
    ensures Safe(c, AfterTick(s, ms))
  {
    var v := AfterTick(s, ms);
    TablesUntouched(c, s, v);
    forall x | x in v.execs
      ensures ExecGood(c, v, x)
    {
      assert ExecGood(c, s, x);
    }
  }

  lemma InsertKeepsSafe(c: Config, s: State, i: nat)
    requires Safe(c, s) && Enabled(c, s, InsertRow(i))
    ensures Safe(c, AfterInsert(c, s, i))
  {
    var v := AfterInsert(c, s, i);
    assert ExecGood(c, s, i);
    forall key | key in v.tables.operations
      ensures RowGood(c, v, key)
    {
      if key in s.tables.operations {
        assert RowGood(c, s, key);
      }
    }
    forall id | id in v.tables.transactions
      ensures TransactionGood(v, id)
    {
      assert TransactionGood(s, id);
    }
    SafeAfter(c, s, v, i);
  }

  lemma ReclaimKeepsTables(c: Config, s: State, i: nat)
    requires Safe(c, s) && Enabled(c, s, ReclaimRow(i)) && c.timing.processingStaleTimeoutMs >= 0
    ensures TablesGood(c, AfterReclaim(c, s, i))
  {
    var v := AfterReclaim(c, s, i);
    assert ExecGood(c, s, i);
    forall key | key in v.tables.operations
      ensures RowGood(c, v, key)
    {
      assert RowGood(c, s, key);
    }
    forall id | id in v.tables.transactions
      ensures TransactionGood(v, id)
    {
      assert TransactionGood(s, id);
    }
  }

  lemma ReclaimKeepsSafe(c: Config, s: State, i: nat)
    requires Safe(c, s) && Enabled(c, s, ReclaimRow(i)) && c.timing.processingStaleTimeoutMs >= 0
    ensures Safe(c, AfterReclaim(c, s, i))
  {
    assert ExecGood(c, s, i);
    ReclaimKeepsTables(c, s, i);
    SafeAfter(c, s, AfterReclaim(c, s, i), i);
  }

  /** The row found by SELECT leads to a stored transaction whenever it leads to a replay. */
  lemma SelectedIsGenuine(c: Config, s: State, e: Execution)
    requires TablesGood(c, s)
    ensures match SelectOperation(s.tables, RequestOf(c, e))
      case Some(CompletedReplay(tx)) => StoredAs(s, e.key, tx) && Genuine(c, s, e.key, e.input, tx)
      case Some(result) => result.FingerprintConflict? || result.InProgress?
      case None => true
  {
    if e.key in s.tables.operations {
      assert RowGood(c, s, e.key);
      var row := s.tables.operations[e.key];
      if row.transactionId.Some? {
        assert TransactionGood(s, row.transactionId.value);
      }
    }
  }

  lemma SelectKeepsSafe(c: Config, s: State, i: nat)
    requires Safe(c, s) && Enabled(c, s, SelectRow(i))
    ensures Safe(c, AfterSelect(c, s, i))
  {
    var v := AfterSelect(c, s, i);
    assert ExecGood(c, s, i);
    SelectedIsGenuine(c, s, s.execs[i]);
    assert ExecGood(c, v, i);
    SafeAfterLocal(c, s, v, i);
  }

  lemma ProviderKeepsTables(c: Config, s: State, m: Sent, recorded: Option<Text>, reply: Reply)
    requires TablesGood(c, s) && HonoursContract(s.records, m, recorded, reply)
    ensures TablesGood(c, AfterProvider(s, m, recorded, reply))
  {
    var v := AfterProvider(s, m, recorded, reply);
    forall key | key in v.tables.operations
      ensures RowGood(c, v, key)
    {
      assert RowGood(c, s, key);
    }
    forall id | id in v.tables.transactions
      ensures TransactionGood(v, id)
    {
      assert TransactionGood(s, id);
    }
  }

  lemma ProviderGrows(s: State, m: Sent, recorded: Option<Text>, reply: Reply, i: nat)
    requires HonoursContract(s.records, m, recorded, reply)
    ensures Grows(s, AfterProvider(s, m, recorded, reply), i)
  {}

  /** The execution that waits is told what the provider has recorded. */
  lemma ProviderKeepsSender(c: Config, s: State, m: Sent, recorded: Option<Text>, reply: Reply)
    requires HonoursContract(s.records, m, recorded, reply) && Awaited(s, m) && ExecGood(c, s, m.execution)
    ensures ExecGood(c, AfterProvider(s, m, recorded, reply), m.execution)
  {}

  lemma ProviderKeepsExec(c: Config, s: State, m: Sent, recorded: Option<Text>, reply: Reply, x: nat)
    requires HonoursContract(s.records, m, recorded, reply)
    requires x in s.execs && ExecGood(c, s, x)
    ensures ExecGood(c, AfterProvider(s, m, recorded, reply), x)
  {
    if Awaited(s, m) && x == m.execution {
      ProviderKeepsSender(c, s, m, recorded, reply);
    } else {
      ProviderGrows(s, m, recorded, reply, x + 1);
      OthersUndisturbed(c, s, AfterProvider(s, m, recorded, reply), x + 1, x);
    }
  }

  lemma ProviderKeepsSafe(c: Config, s: State, m: Sent, recorded: Option<Text>, reply: Reply)
    requires Safe(c, s) && Enabled(c, s, ProviderHandles(m, recorded, reply))
    ensures Safe(c, AfterProvider(s, m, recorded, reply))
  {
    var v := AfterProvider(s, m, recorded, reply);
    ProviderKeepsTables(c, s, m, recorded, reply);
    forall x | x in v.execs
      ensures ExecGood(c, v, x)
    {
      ProviderKeepsExec(c, s, m, recorded, reply, x);
    }
  }

  lemma AttemptKeepsSafe(c: Config, s: State, i: nat, reply: Reply, random: real)
    requires Safe(c, s) && i in s.execs && s.execs[i].phase.Calling?
    requires reply.Approved? ==> s.execs[i].phase.reply == Some(reply)
    ensures Safe(c, AttemptOver(c, s, i, reply, random))
  {
    assert ExecGood(c, s, i);
    SafeAfterLocal(c, s, AttemptOver(c, s, i, reply, random), i);
  }

  lemma ReleaseKeepsSafe(c: Config, s: State, i: nat)
    requires Safe(c, s) && Enabled(c, s, Action.Release(i))
    ensures Safe(c, AfterRelease(c, s, i))
  {
    var v := AfterRelease(c, s, i);
    assert ExecGood(c, s, i);
    forall key | key in v.tables.operations
      ensures RowGood(c, v, key)
    {
      assert RowGood(c, s, key);
    }
    forall id | id in v.tables.transactions
      ensures TransactionGood(v, id)
    {
      assert TransactionGood(s, id);
      assert RowGood(c, s, s.issued[id].key);
    }
    SafeAfter(c, s, v, i);
  }

  lemma IssueKeepsSafe(c: Config, s: State, i: nat, id: Id)
    requires Safe(c, s) && Enabled(c, s, IssueId(i, id))
    ensures Safe(c, AfterIssue(s, i, id))
  {
    var v := AfterIssue(s, i, id);
    assert ExecGood(c, s, i);
    forall used | used in s.tables.transactions
      ensures used in s.issued
    {
      assert TransactionGood(s, used);
    }
    forall key | key in v.tables.operations
      ensures RowGood(c, v, key)
    {
      assert RowGood(c, s, key);
    }
    forall other | other in v.tables.transactions
      ensures TransactionGood(v, other)
    {
      assert TransactionGood(s, other);
    }
    SafeAfter(c, s, v, i);
  }

  lemma CommitKeepsTables(c: Config, s: State, i: nat)
    requires Safe(c, s) && Enabled(c, s, Action.Commit(i))
    requires CompletionCommits(s.tables, CompletionOf(c, s.execs[i]))
    ensures TablesGood(c, AfterCommit(c, s, i))
  {
    var v := AfterCommit(c, s, i);
    assert ExecGood(c, s, i);
    forall key | key in v.tables.operations
      ensures RowGood(c, v, key)
    {
      assert RowGood(c, s, key);
    }
    forall id | id in v.tables.transactions
      ensures TransactionGood(v, id)
    {
      if id in s.tables.transactions {
        assert TransactionGood(s, id);
        assert RowGood(c, s, s.issued[id].key);
      }
    }
  }

  lemma CommitKeepsSafe(c: Config, s: State, i: nat)
    requires Safe(c, s) && Enabled(c, s, Action.Commit(i))
    ensures Safe(c, AfterCommit(c, s, i))
  {
    var v := AfterCommit(c, s, i);
    assert ExecGood(c, s, i);
    if !CompletionCommits(s.tables, CompletionOf(c, s.execs[i])) {
      SafeAfterLocal(c, s, v, i);
    } else {
      CommitKeepsTables(c, s, i);
      assert RowGood(c, s, s.execs[i].key);
      SafeAfter(c, s, v, i);
    }
  }

  lemma ArriveKeepsSafe(c: Config, s: State, i: nat, key: Key, input: TransactionInput, replica: nat)
    requires Safe(c, s) && i !in s.execs
    ensures Safe(c, AfterArrive(s, i, key, input, replica))
  {
    SafeAfterLocal(c, s, AfterArrive(s, i, key, input, replica), i);
  }

  lemma SendKeepsSafe(c: Config, s: State, a: Action)
    requires Safe(c, s) && Enabled(c, s, a) && (a.AskBreaker? || a.Wake?)
    ensures Safe(c, After(c, s, a))
  {
    assert ExecGood(c, s, a.i);
    SafeAfterLocal(c, s, After(c, s, a), a.i);
  }

  lemma EndKeepsSafe(c: Config, s: State, a: Action)
    requires Safe(c, s) && Enabled(c, s, a) && (a.Respond? || a.Abandon?)
    ensures Safe(c, After(c, s, a))
  {
    assert ExecGood(c, s, a.i);
    SafeAfterLocal(c, s, After(c, s, a), a.i);
  }

  lemma StepKeepsSafe(c: Config, s: State, a: Action)
    requires Safe(c, s) && Enabled(c, s, a) && c.timing.processingStaleTimeoutMs >= 0
    ensures Safe(c, After(c, s, a))
  {
    match a
    case Tick(ms) => TickKeepsSafe(c, s, ms);
    case Arrive(i, key, input, replica) => ArriveKeepsSafe(c, s, i, key, input, replica);
    case InsertRow(i) => InsertKeepsSafe(c, s, i);
    case ReclaimRow(i) => ReclaimKeepsSafe(c, s, i);
    case SelectRow(i) => SelectKeepsSafe(c, s, i);
    case AskBreaker(_) => SendKeepsSafe(c, s, a);
    case ProviderHandles(m, recorded, reply) => ProviderKeepsSafe(c, s, m, recorded, reply);
    case Receive(i, random) => AttemptKeepsSafe(c, s, i, s.execs[i].phase.reply.value, random);
    case LoseReply(i, error, random) => AttemptKeepsSafe(c, s, i, Failed(error), random);
    case Wake(_) => SendKeepsSafe(c, s, a);
    case Release(i) => ReleaseKeepsSafe(c, s, i);
    case IssueId(i, id) => IssueKeepsSafe(c, s, i, id);
    case Commit(i) => CommitKeepsSafe(c, s, i);
    case Respond(_) => EndKeepsSafe(c, s, a);
    case Abandon(_) => EndKeepsSafe(c, s, a);
  }

  lemma {:induction false} SafeAlways(c: Config, states: seq<State>, actions: seq<Action>, n: nat)
    requires Run(c, states, actions) && n < |states| && c.timing.processingStaleTimeoutMs >= 0
    ensures Safe(c, states[n])
  {
    if n > 0 {
      SafeAlways(c, states, actions, n - 1);
      StepKeepsSafe(c, states[n - 1], actions[n - 1]);
    }
  }
}
