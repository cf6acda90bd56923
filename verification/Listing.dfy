/** The order of the transaction list, and how pages cut it. */
module Listing {
  import opened Arithmetic
  import opened Domain

  /** Newest first; ties go to the larger id. */
  predicate Before(a: Transaction, b: Transaction) {
    a.createdAt > b.createdAt || (a.createdAt == b.createdAt && a.id > b.id)
  }

  ghost predicate Ordered(s: seq<Transaction>) {
    forall i, j :: 0 <= i < j < |s| ==> Before(s[i], s[j])
  }

  /** In terms of the two columns of the ORDER BY. */
  lemma NewestFirst(s: seq<Transaction>, i: nat, j: nat)
    requires Ordered(s) && i < j < |s|
    ensures s[i].createdAt >= s[j].createdAt
    ensures s[i].createdAt == s[j].createdAt ==> s[i].id > s[j].id
  {
    assert Before(s[i], s[j]);
  }

  /** Every row sits under its own primary key. */
  ghost predicate Keyed(rows: map<Id, Transaction>) {
    forall id :: id in rows ==> rows[id].id == id
  }

  ghost predicate Lists(s: seq<Transaction>, rows: map<Id, Transaction>) {
    && (forall x :: x in s ==> x.id in rows && rows[x.id] == x)
    && (forall id :: id in rows ==> rows[id] in s)
  }

  function Insert(s: seq<Transaction>, t: Transaction): (r: seq<Transaction>)
    ensures multiset(r) == multiset(s) + multiset{t}
  {
    if s == [] then [t]
    else if Before(t, s[0]) then
      assert [t] + s == [t] + s;
      [t] + s
    else
      assert s == [s[0]] + s[1..];
      [s[0]] + Insert(s[1..], t)
  }

  lemma InsertKeepsMembers(s: seq<Transaction>, t: Transaction)
    ensures forall x :: x in Insert(s, t) <==> x in s || x == t
  {
    assert forall x :: x in Insert(s, t) <==> x in multiset(Insert(s, t));
  }

  lemma {:induction false} InsertKeepsOrder(s: seq<Transaction>, t: Transaction)
    requires Ordered(s) && forall i :: 0 <= i < |s| ==> s[i].id != t.id
    ensures Ordered(Insert(s, t))
  {
    if s != [] && !Before(t, s[0]) {
      InsertKeepsOrder(s[1..], t);
      var rest := Insert(s[1..], t);
      forall j | 0 <= j < |rest|
        ensures Before(s[0], rest[j])
      {
        InsertKeepsMembers(s[1..], t);
        assert rest[j] in rest;
      }
    }
  }

  lemma InsertLists(s: seq<Transaction>, rows: map<Id, Transaction>, t: Transaction)
    requires Keyed(rows) && Lists(s, rows) && t.id !in rows
    ensures Lists(Insert(s, t), rows[t.id := t])
  {
    InsertKeepsMembers(s, t);
  }

  /** There is only one way to list a table in order. */
  lemma {:induction false} OrderIsUnique(s: seq<Transaction>, r: seq<Transaction>)
    requires Ordered(s) && Ordered(r) && forall x :: x in s <==> x in r
    ensures s == r
  {
    assert r == [] || r[0] in r;
    if s != [] {
      assert s[0] in r && r[0] in s;
      assert s[0] == r[0];
      forall x | x in s[1..]
        ensures x in r[1..]
      {
        assert x in s && x != s[0];
      }
      forall x | x in r[1..]
        ensures x in s[1..]
      {
        assert x in r && x != r[0];
      }
      OrderIsUnique(s[1..], r[1..]);
    }
  }

  /** `slice(offset, offset + limit)`, and equally `OFFSET ... LIMIT ...`. */
  function Slice(s: seq<Transaction>, offset: nat, limit: nat): seq<Transaction> {
    var from := if offset <= |s| then offset else |s|;
    var to := if offset + limit <= |s| then offset + limit else |s|;
    s[from..to]
  }

  lemma SliceShape(s: seq<Transaction>, offset: nat, limit: nat)
    ensures var r := Slice(s, offset, limit);
      && |r| <= limit
      && (forall i :: 0 <= i < |r| ==> offset + i < |s| && r[i] == s[offset + i])
      && (|r| < limit ==> offset + |r| >= |s|)
  {}

  datatype PageResult = PageResult(data: seq<Transaction>, page: nat, limit: nat, total: nat, totalPages: nat)

  function TotalPages(total: nat, limit: nat): nat
    requires limit >= 1
  {
    (total + limit - 1) / limit
  }

  /** One page over a fixed store whose ordered list is `all`. */
  function PageAt(all: seq<Transaction>, page: nat, limit: nat): PageResult
    requires page >= 1 && limit >= 1
  {
    PageResult(Slice(all, (page - 1) * limit, limit), page, limit, |all|, TotalPages(|all|, limit))
  }

  /** A page says what it is, and shows at most `limit` rows: those at its offset. */
  lemma PageShape(all: seq<Transaction>, page: nat, limit: nat)
    requires page >= 1 && limit >= 1
    ensures var p := PageAt(all, page, limit);
      && p.page == page && p.limit == limit && p.total == |all|
      && |p.data| <= limit
      && (forall i :: 0 <= i < |p.data| ==>
            (page - 1) * limit + i < |all| && p.data[i] == all[(page - 1) * limit + i])
      && (|p.data| < limit ==> (page - 1) * limit + |p.data| >= |all|)
  {
    SliceShape(all, (page - 1) * limit, limit);
  }

  function FirstPages(all: seq<Transaction>, n: nat, limit: nat): seq<Transaction>
    requires limit >= 1
  {
    if n == 0 then [] else FirstPages(all, n - 1, limit) + PageAt(all, n, limit).data
  }

  lemma SliceSplits(all: seq<Transaction>, offset: nat, limit: nat)
    ensures Slice(all, 0, offset + limit) == Slice(all, 0, offset) + Slice(all, offset, limit)
  {}

  lemma {:induction false} FirstPagesArePrefix(all: seq<Transaction>, n: nat, limit: nat)
    requires limit >= 1
    ensures FirstPages(all, n, limit) == Slice(all, 0, n * limit)
  {
    if n > 0 {
      FirstPagesArePrefix(all, n - 1, limit);
      assert n * limit == (n - 1) * limit + limit;
      SliceSplits(all, (n - 1) * limit, limit);
    }
  }

  /** `totalPages` is the number of pages that hold anything. */
  lemma PageIsEmptyExactlyPastTheLast(total: nat, limit: nat, page: nat)
    requires limit >= 1 && page >= 1
    ensures TotalPages(total, limit) * limit >= total
    ensures page > TotalPages(total, limit) <==> (page - 1) * limit >= total
  {
    var n := TotalPages(total, limit);
    assert n * limit <= total + limit - 1 < n * limit + limit;
    if page > n {
      ProductGrows(n, page - 1, limit);
    } else {
      ProductGrows(page - 1, n - 1, limit);
      assert (n - 1) * limit == n * limit - limit;
    }
  }

  /** In an ordered list nothing occurs twice. */
  lemma OrderedListsEachOnce(s: seq<Transaction>, i: nat, j: nat)
    requires Ordered(s) && i < j < |s|
    ensures s[i] != s[j]
  {
    assert Before(s[i], s[j]);
  }

  lemma SliceOfPage(all: seq<Transaction>, offset: nat, limit: nat)
    ensures offset == 0 && limit >= |all| ==> Slice(all, offset, limit) == all
    ensures limit >= 1 ==> (Slice(all, offset, limit) == [] <==> offset >= |all|)
  {}

  lemma PagesCover(all: seq<Transaction>, n: nat, limit: nat)
    requires limit >= 1 && n * limit >= |all|
    ensures FirstPages(all, n, limit) == all
  {
    FirstPagesArePrefix(all, n, limit);
    SliceOfPage(all, 0, n * limit);
  }

  /** Pages 1..totalPages, laid end to end, are the whole list in order. */
  lemma PagesPartitionTheList(all: seq<Transaction>, limit: nat)
    requires limit >= 1
    ensures FirstPages(all, TotalPages(|all|, limit), limit) == all
  {
    PageIsEmptyExactlyPastTheLast(|all|, limit, 1);
    PagesCover(all, TotalPages(|all|, limit), limit);
  }

  /** Every page up to totalPages shows something, every later one nothing. */
  lemma LaterPagesAreEmpty(all: seq<Transaction>, limit: nat, page: nat)
    requires limit >= 1 && page >= 1
    ensures page > PageAt(all, page, limit).totalPages <==> PageAt(all, page, limit).data == []
  {
    PageIsEmptyExactlyPastTheLast(|all|, limit, page);
    SliceOfPage(all, (page - 1) * limit, limit);
  }

  /** A page past the last one of some total shows something exactly if the list is that much longer. */
  lemma PageBeyond(all: seq<Transaction>, total: nat, page: nat, limit: nat)
    requires limit >= 1 && page >= 1
    ensures page > TotalPages(total, limit) && Slice(all, (page - 1) * limit, limit) != [] <==>
      total <= (page - 1) * limit < |all|
  {
    PageIsEmptyExactlyPastTheLast(total, limit, page);
    SliceOfPage(all, (page - 1) * limit, limit);
  }
}
