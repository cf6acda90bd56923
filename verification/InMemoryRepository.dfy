/** The in-memory repository: each operation in one step. It is what the SQL one is measured against. */
module InMemoryRepository {
  import opened Domain
  import opened Store
  import Listing

  ghost function SomeKey(rows: map<Id, Transaction>): (id: Id)
    requires rows != map[]
    ensures id in rows
  {
    var id :| id in rows; id
  }

  /** The rows in list order, by taking them up in any order at all. */
  ghost function OrderedList(rows: map<Id, Transaction>): seq<Transaction>
    decreases |rows|
  {
    if rows == map[] then []
    else
      var id := SomeKey(rows);
      Listing.Insert(OrderedList(rows - {id}), rows[id])
  }

  lemma {:induction false} OrderedListIsOrdered(rows: map<Id, Transaction>)
    requires Listing.Keyed(rows)
    ensures Listing.Ordered(OrderedList(rows)) && Listing.Lists(OrderedList(rows), rows)
    decreases |rows|
  {
    if rows != map[] {
      var id := SomeKey(rows);
      var others := rows - {id};
      OrderedListIsOrdered(others);
      Listing.InsertKeepsOrder(OrderedList(others), rows[id]);
      Listing.InsertLists(OrderedList(others), others, rows[id]);
      assert others[id := rows[id]] == rows;
    }
  }

  lemma ListIsUnique(s: seq<Transaction>, rows: map<Id, Transaction>)
    requires Listing.Keyed(rows) && Listing.Ordered(s) && Listing.Lists(s, rows)
    ensures s == OrderedList(rows)
  {
    OrderedListIsOrdered(rows);
    Listing.OrderIsUnique(s, OrderedList(rows));
  }

  lemma {:induction false} DistinctIdsCount(s: seq<Transaction>)
    requires forall i, j :: 0 <= i < j < |s| ==> s[i].id != s[j].id
    ensures |set t | t in s :: t.id| == |s|
  {
    if s != [] {
      DistinctIdsCount(s[1..]);
      assert s == [s[0]] + s[1..];
      assert (set t | t in s :: t.id) == (set t | t in s[1..] :: t.id) + {s[0].id};
    }
  }

  lemma {:induction false} CountIsListLength(rows: map<Id, Transaction>)
    requires Listing.Keyed(rows)
    ensures |OrderedList(rows)| == |rows|
  {
    var s := OrderedList(rows);
    OrderedListIsOrdered(rows);
    forall i, j | 0 <= i < j < |s|
      ensures s[i].id != s[j].id
    {
      assert Listing.Before(s[i], s[j]);
    }
    DistinctIdsCount(s);
    assert (set t | t in s :: t.id) == rows.Keys;
    assert |rows.Keys| == |rows|;
  }

  /** Takes the rows up one by one, in whatever order the map gives them. */
  method Sorted(rows: map<Id, Transaction>) returns (sorted: seq<Transaction>)
    requires Listing.Keyed(rows)
    ensures sorted == OrderedList(rows)
  {
    var rest := rows.Keys;
    sorted := [];
    while rest != {}
      invariant rest <= rows.Keys
      invariant Listing.Ordered(sorted)
      invariant forall x :: x in sorted ==> x.id in rows && x.id !in rest && rows[x.id] == x
      invariant forall id :: id in rows && id !in rest ==> rows[id] in sorted
    {
      var id :| id in rest;
      Listing.InsertKeepsOrder(sorted, rows[id]);
      Listing.InsertKeepsMembers(sorted, rows[id]);
      sorted := Listing.Insert(sorted, rows[id]);
      rest := rest - {id};
    }
    ListIsUnique(sorted, rows);
  }

  class InMemoryTransactionRepository {
    var operations: map<Key, Operation>
    var transactionsById: map<Id, Transaction>

    ghost function Model(): Tables
      reads this
    {
      Tables(operations, transactionsById)
    }

    constructor ()
      ensures Model() == EMPTY
    {
      operations, transactionsById := map[], map[];
    }

    method ClaimIdempotencyOperation(r: ClaimRequest) returns (result: ClaimResult)
      modifies this
      ensures (Model(), result) == AtomicClaim(old(Model()), r)
    {
      if r.key !in operations {
        operations := operations[r.key := Operation(r.fingerprint, Processing, None, r.claimedAt, r.claimedAt)];
        return NewClaim;
      }
      var existing := operations[r.key];
      if existing.fingerprint != r.fingerprint {
        return FingerprintConflict;
      }
      if existing.status.Completed? && existing.transactionId.Some? {
        if existing.transactionId.value !in transactionsById {
          return MissingTransaction;
        }
        return CompletedReplay(transactionsById[existing.transactionId.value]);
      }
      if existing.updatedAt <= r.staleBefore {
        operations := operations[r.key := existing.(updatedAt := r.claimedAt)];
        return NewClaim;
      }
      return InProgress;
    }

    /** `completed == false` stands for the thrown "cannot be completed". */
    method CompleteIdempotencyOperation(q: Completion) returns (completed: bool)
      modifies this
      ensures (Model(), completed) == AtomicComplete(old(Model()), q)
    {
      if q.key !in operations || !operations[q.key].status.Processing?
         || operations[q.key].fingerprint != q.fingerprint {
        return false;
      }
      transactionsById := transactionsById[q.transaction.id := q.transaction];
      var existing := operations[q.key];
      existing := existing.(status := Completed);
      existing := existing.(transactionId := Some(q.transaction.id));
      existing := existing.(updatedAt := q.completedAt);
      operations := operations[q.key := existing];
      return true;
    }

    method ReleaseIdempotencyOperation(key: Key, fingerprint: Fingerprint)
      modifies this
      ensures Model() == DeleteOperation(old(Model()), key, fingerprint)
    {
      if key in operations && operations[key].status.Processing? && operations[key].fingerprint == fingerprint {
        operations := operations - {key};
      }
    }

    method List(offset: nat, limit: nat) returns (page: seq<Transaction>)
      requires Listing.Keyed(transactionsById)
      ensures page == Listing.Slice(OrderedList(transactionsById), offset, limit)
    {
      var sorted := Sorted(transactionsById);
      page := Listing.Slice(sorted, offset, limit);
    }

    method Count() returns (total: nat)
      requires Listing.Keyed(transactionsById)
      ensures total == |OrderedList(transactionsById)|
    {
      total := |transactionsById|;
      CountIsListLength(transactionsById);
    }

    /** `ListTransactions.execute` over a store that nobody else changes meanwhile. */
    method ListTransactions(page: nat, limit: nat) returns (result: Listing.PageResult)
      requires page >= 1 && limit >= 1 && Listing.Keyed(transactionsById)
      ensures result == Listing.PageAt(OrderedList(transactionsById), page, limit)
    {
      var offset := (page - 1) * limit;
      var data := List(offset, limit);
      var total := Count();
      result := Listing.PageResult(data, page, limit, total, Listing.TotalPages(total, limit));
    }
  }
}
