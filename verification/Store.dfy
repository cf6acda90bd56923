/** The two tables, the SQL statements that touch them, and the atomic operations they stand for. */
module Store {
  import opened Domain
  import Listing

  datatype Status = Processing | Completed

  datatype Operation = Operation(
    fingerprint: Fingerprint,
    status: Status,
    transactionId: Option<Id>,
    createdAt: int,
    updatedAt: int)

  datatype Tables = Tables(operations: map<Key, Operation>, transactions: map<Id, Transaction>)

  datatype ClaimRequest = ClaimRequest(key: Key, fingerprint: Fingerprint, claimedAt: int, staleBefore: int)

  datatype Completion = Completion(key: Key, fingerprint: Fingerprint, transaction: Transaction, completedAt: int)

  datatype ClaimResult =
    | NewClaim
    | CompletedReplay(transaction: Transaction)
    | FingerprintConflict
    | InProgress
    | MissingTransaction    // "Completed idempotency operation has no transaction"
    | ChangedDuringClaim    // "Idempotency operation changed during claim"

  const EMPTY := Tables(map[], map[])

  predicate RowOk(t: Tables, row: Operation) {
    && row.createdAt <= row.updatedAt
    && (row.status.Completed? <==> row.transactionId.Some?)
    && (row.transactionId.Some? ==> row.transactionId.value in t.transactions)
  }

  predicate SameTransaction(a: Operation, b: Operation) {
    a.transactionId.Some? && a.transactionId == b.transactionId
  }

  /** The migration's constraints that do not concern single column values. */
  ghost predicate Constrained(t: Tables) {
    && Listing.Keyed(t.transactions)
    && (forall k :: k in t.operations ==> RowOk(t, t.operations[k]))
    && (forall j, k ::
          (j in t.operations && k in t.operations && SameTransaction(t.operations[j], t.operations[k]))
            ==> j == k)
  }

  predicate HeldUnder(t: Tables, key: Key, fingerprint: Fingerprint) {
    && key in t.operations
    && t.operations[key].fingerprint == fingerprint
    && t.operations[key].status.Processing?
  }

  predicate Stale(t: Tables, r: ClaimRequest) {
    HeldUnder(t, r.key, r.fingerprint) && t.operations[r.key].updatedAt <= r.staleBefore
  }

  // ---- One function for each SQL statement ---------------------------------------------------

  function FreshRow(r: ClaimRequest): Operation {
    Operation(r.fingerprint, Processing, None, r.claimedAt, r.claimedAt)
  }

  function InsertOperation(t: Tables, r: ClaimRequest): (Tables, bool) {
    if r.key in t.operations then (t, false)
    else (t.(operations := t.operations[r.key := FreshRow(r)]), true)
  }

  function ReclaimOperation(t: Tables, r: ClaimRequest): (Tables, bool) {
    if Stale(t, r)
    then (t.(operations := t.operations[r.key := t.operations[r.key].(updatedAt := r.claimedAt)]), true)
    else (t, false)
  }

  /** The SELECT with its LEFT JOIN, and what the code makes of the row; `None` when there is no row. */
  function SelectOperation(t: Tables, r: ClaimRequest): Option<ClaimResult> {
    if r.key !in t.operations then None
    else
      var row := t.operations[r.key];
      if row.fingerprint != r.fingerprint then Some(FingerprintConflict)
      else if row.status.Completed? then
        if row.transactionId.Some? && row.transactionId.value in t.transactions
        then Some(CompletedReplay(t.transactions[row.transactionId.value]))
        else Some(MissingTransaction)
      else Some(InProgress)
  }

  function CompletedRow(row: Operation, q: Completion): Operation {
    row.(status := Completed, transactionId := Some(q.transaction.id), updatedAt := q.completedAt)
  }

  /**
   * The completion transaction commits both writes or neither. The INSERT fails on a used id, the
   * UPDATE must match one row, and the timestamps check refuses `updated_at < created_at`.
   */
  predicate CompletionCommits(t: Tables, q: Completion) {
    && q.transaction.id !in t.transactions
    && HeldUnder(t, q.key, q.fingerprint)
    && t.operations[q.key].createdAt <= q.completedAt
  }

  function CommitCompletion(t: Tables, q: Completion): (Tables, bool) {
    if CompletionCommits(t, q)
    then (Tables(t.operations[q.key := CompletedRow(t.operations[q.key], q)],
                 t.transactions[q.transaction.id := q.transaction]), true)
    else (t, false)
  }

  function DeleteOperation(t: Tables, key: Key, fingerprint: Fingerprint): Tables {
    if HeldUnder(t, key, fingerprint) then t.(operations := t.operations - {key}) else t
  }

  // ---- The atomic operations of the in-memory repository -------------------------------------

  function AtomicClaim(t: Tables, r: ClaimRequest): (Tables, ClaimResult) {
    if r.key !in t.operations then
      (t.(operations := t.operations[r.key := FreshRow(r)]), NewClaim)
    else
      var row := t.operations[r.key];
      if row.fingerprint != r.fingerprint then (t, FingerprintConflict)
      else if row.status.Completed? && row.transactionId.Some? then
        if row.transactionId.value !in t.transactions then (t, MissingTransaction)
        else (t, CompletedReplay(t.transactions[row.transactionId.value]))
      else if row.updatedAt <= r.staleBefore then
        (t.(operations := t.operations[r.key := row.(updatedAt := r.claimedAt)]), NewClaim)
      else (t, InProgress)
  }

  function AtomicComplete(t: Tables, q: Completion): (Tables, bool) {
    if !HeldUnder(t, q.key, q.fingerprint) then (t, false)
    else (Tables(t.operations[q.key := CompletedRow(t.operations[q.key], q)],
                 t.transactions[q.transaction.id := q.transaction]), true)
  }

  // ---- What the statements keep --------------------------------------------------------------

  lemma ClaimStatementsKeepConstraints(t: Tables, r: ClaimRequest)
    requires Constrained(t) && r.staleBefore <= r.claimedAt
    ensures Constrained(InsertOperation(t, r).0)
    ensures Constrained(ReclaimOperation(t, r).0)
    ensures Constrained(AtomicClaim(t, r).0)
  {
    var stale := ReclaimOperation(t, r).0;
    forall k | k in stale.operations
      ensures RowOk(stale, stale.operations[k])
    {
      assert RowOk(t, t.operations[k]);
    }
  }

  lemma SettlingStatementsKeepConstraints(t: Tables, q: Completion)
    requires Constrained(t)
    ensures Constrained(CommitCompletion(t, q).0)
    ensures Constrained(DeleteOperation(t, q.key, q.fingerprint))
  {
    var done := CommitCompletion(t, q).0;
    forall k | k in done.operations
      ensures RowOk(done, done.operations[k])
    {
      assert RowOk(t, t.operations[k]);
    }
    forall j, k | j in done.operations && k in done.operations
      && SameTransaction(done.operations[j], done.operations[k])
      ensures j == k
    {
      assert RowOk(t, t.operations[j]) && RowOk(t, t.operations[k]);
    }
  }

  /** The completion transaction is the atomic one, except on a reused id or a backdated completion. */
  lemma CommitIsAtomicComplete(t: Tables, q: Completion)
    ensures CommitCompletion(t, q) == AtomicComplete(t, q) <==>
      (HeldUnder(t, q.key, q.fingerprint) ==>
         q.transaction.id !in t.transactions && t.operations[q.key].createdAt <= q.completedAt)
  {
    if HeldUnder(t, q.key, q.fingerprint) && !CompletionCommits(t, q) {
      assert !CommitCompletion(t, q).1 && AtomicComplete(t, q).1;
    }
  }

  /** A release takes away exactly a processing row under this key and fingerprint, and changes nothing else. */
  lemma ReleaseTakesExactly(t: Tables, key: Key, fingerprint: Fingerprint)
    ensures var u := DeleteOperation(t, key, fingerprint);
      && u.transactions == t.transactions
      && (forall k :: k in u.operations ==> k in t.operations && u.operations[k] == t.operations[k])
      && (forall k :: k in t.operations ==>
            (k !in u.operations <==>
               k == key && t.operations[k].fingerprint == fingerprint && t.operations[k].status.Processing?))
  {}

  /** A completion is carried out exactly on such a row, by one transaction with a new id. */
  lemma CompletionTakesExactly(t: Tables, q: Completion)
    ensures CommitCompletion(t, q).1 <==>
      && q.key in t.operations
      && t.operations[q.key].fingerprint == q.fingerprint && t.operations[q.key].status.Processing?
      && t.operations[q.key].createdAt <= q.completedAt && q.transaction.id !in t.transactions
    ensures !CommitCompletion(t, q).1 ==> CommitCompletion(t, q).0 == t
    ensures CommitCompletion(t, q).1 ==>
      && CommitCompletion(t, q).0.transactions == t.transactions[q.transaction.id := q.transaction]
      && CommitCompletion(t, q).0.operations == t.operations[q.key :=
           Operation(q.fingerprint, Completed, Some(q.transaction.id), t.operations[q.key].createdAt, q.completedAt)]
  {}

  /** Releasing undoes a claim that found no row; a reclaimed claim is not undone: the key is freed. */
  lemma ReleaseAfterClaim(t: Tables, r: ClaimRequest)
    requires Constrained(t) && AtomicClaim(t, r).1.NewClaim?
    ensures var freed := DeleteOperation(AtomicClaim(t, r).0, r.key, r.fingerprint);
      && freed.operations == t.operations - {r.key}
      && (freed == t <==> r.key !in t.operations)
  {
    var claimed := AtomicClaim(t, r).0;
    var freed := DeleteOperation(claimed, r.key, r.fingerprint);
    if r.key in t.operations {
      assert RowOk(t, t.operations[r.key]);
      assert r.key !in freed.operations;
    }
  }
}
