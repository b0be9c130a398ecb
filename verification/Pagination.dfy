/**
 Keyset pagination as every list handler does it: fetch limit + 1 rows strictly after
 the cursor, pop the extra row, and hand out that popped row as the next cursor. The next
 query compares strictly, so the popped row itself is never returned. This module proves
 exactly which rows a walk returns.
 */
module Pagination {
  import opened Common
  import opened Arith

  /** The sort key of a listed row; the other columns ride along. */
  datatype Row = Row(createdAt: int, id: int)

  /** ORDER BY created_at DESC, id DESC: `a` comes before `b`. */
  predicate Before(a: Row, b: Row) {
    a.createdAt > b.createdAt || (a.createdAt == b.createdAt && a.id > b.id)
  }

  predicate StrictlySorted(rows: seq<Row>) {
    forall i, j :: 0 <= i < j < |rows| ==> Before(rows[i], rows[j])
  }

  /** WHERE created_at < $1 OR (created_at = $1 AND id < $2), or no condition on the first page. */
  predicate Selected(cursor: Option<Row>, r: Row) {
    || cursor.None? || r.createdAt < cursor.value.createdAt
    || (r.createdAt == cursor.value.createdAt && r.id < cursor.value.id)
  }

  function After(rows: seq<Row>, cursor: Option<Row>): seq<Row> {
    if rows == [] then []
    else (if Selected(cursor, rows[0]) then [rows[0]] else []) + After(rows[1..], cursor)
  }

  function Limit(rows: seq<Row>, n: nat): seq<Row> {
    if |rows| <= n then rows else rows[..n]
  }

  datatype Page = Page(items: seq<Row>, next: Option<Row>)

  function PageOf(rows: seq<Row>, cursor: Option<Row>, n: nat): Page {
    var found := Limit(After(rows, cursor), n + 1);
    if |found| > n then Page(found[..n], Some(found[n])) else Page(found, None)
  }

  /** A handler's body: collect the rows, then pop the extra one. */
  method ListPage(table: seq<Row>, cursor: Option<Row>, limit: nat) returns (items: seq<Row>, next: Option<Row>)
    ensures Page(items, next) == PageOf(table, cursor, limit)
  {
    var rows := Limit(After(table, cursor), limit + 1);
    items := [];
    for i := 0 to |rows|
      invariant items == rows[..i]
    {
      items := items + [rows[i]];
    }
    assert items == rows && |rows| <= limit + 1;
    next := None;
    if |items| > limit {
      next := Some(items[|items| - 1]);
      items := items[..|items| - 1];
    }
  }

  // ---------- The query on a sorted list ----------

  lemma {:induction false} AfterWholeSuffix(rows: seq<Row>, cursor: Option<Row>)
    requires forall i :: 0 <= i < |rows| ==> Selected(cursor, rows[i])
    ensures After(rows, cursor) == rows
  {
    if rows != [] {
      AfterWholeSuffix(rows[1..], cursor);
      assert rows == [rows[0]] + rows[1..];
    }
  }

  lemma {:induction false} AfterMembers(rows: seq<Row>, cursor: Option<Row>)
    requires StrictlySorted(rows)
    ensures StrictlySorted(After(rows, cursor))
    ensures forall r :: r in After(rows, cursor) <==> r in rows && Selected(cursor, r)
  {
    if rows != [] {
      var rest := After(rows[1..], cursor);
      AfterMembers(rows[1..], cursor);
      assert forall r :: r in rows <==> r == rows[0] || r in rows[1..];
      forall r | r in rest ensures Before(rows[0], r) {
        var k :| 0 <= k < |rows[1..]| && rows[1..][k] == r;
        assert rows[k + 1] == r;
      }
      SortedCons(rows[0], rest);
    }
  }

  lemma SortedCons(first: Row, rest: seq<Row>)
    requires StrictlySorted(rest) && forall r :: r in rest ==> Before(first, r)
    ensures StrictlySorted([first] + rest)
  {
    var all := [first] + rest;
    forall i, j | 0 <= i < j < |all| ensures Before(all[i], all[j]) {
      assert all[j] == rest[j - 1] && all[j] in rest;
      if i > 0 { assert all[i] == rest[i - 1]; }
    }
  }

  /** A cursor taken from the list leaves exactly the rows behind it. */
  lemma {:induction false} AfterCursor(rows: seq<Row>, k: nat)
    requires StrictlySorted(rows) && k < |rows|
    ensures After(rows, Some(rows[k])) == rows[k + 1..]
  {
    var c := Some(rows[k]);
    assert !Selected(c, rows[0]);
    if k == 0 {
      assert forall i :: 0 <= i < |rows[1..]| ==> Selected(c, rows[1..][i]);
      AfterWholeSuffix(rows[1..], c);
    } else {
      AfterCursor(rows[1..], k - 1);
      assert rows[1..][k - 1] == rows[k];
      assert rows[1..][k..] == rows[k + 1..];
    }
  }

  /** Querying again behind a later row sees only what was left. */
  lemma AfterAgain(rows: seq<Row>, cursor: Option<Row>, k: nat)
    requires StrictlySorted(rows) && k < |After(rows, cursor)|
    ensures After(rows, Some(After(rows, cursor)[k])) == After(rows, cursor)[k + 1..]
  {
    var left := After(rows, cursor);
    var c := Some(left[k]);
    AfterMembers(rows, cursor);
    AfterMembers(rows, c);
    AfterMembers(left, c);
    AfterCursor(left, k);
    assert left[k] in left;
    assert forall r :: Selected(c, r) ==> Selected(cursor, r);
    SortedSameRows(After(rows, c), After(left, c));
  }

  /** A strictly sorted list is determined by its rows. */
  lemma {:induction false} SortedSameRows(a: seq<Row>, b: seq<Row>)
    requires StrictlySorted(a) && StrictlySorted(b)
    requires forall r :: r in a <==> r in b
    ensures a == b
    decreases |a|
  {
    if |b| > 0 { assert b[0] in a; }
    if a != [] {
      assert a[0] in b;
      var i :| 0 <= i < |b| && b[i] == a[0];
      assert b[0] in a;
      var j :| 0 <= j < |a| && a[j] == b[0];
      assert i == 0;
      forall r ensures r in a[1..] <==> r in b[1..] {
        if r in a[1..] {
          var x :| 0 <= x < |a[1..]| && a[1..][x] == r;
          assert a[x + 1] == r && r in b;
          var y :| 0 <= y < |b| && b[y] == r;
          assert y != 0;
          assert b[1..][y - 1] == r;
        }
        if r in b[1..] {
          var x :| 0 <= x < |b[1..]| && b[1..][x] == r;
          assert b[x + 1] == r && r in a;
          var y :| 0 <= y < |a| && a[y] == r;
          assert y != 0;
          assert a[1..][y - 1] == r;
        }
      }
      SortedSameRows(a[1..], b[1..]);
      assert a == [a[0]] + a[1..] && b == [b[0]] + b[1..];
    }
  }

  // ---------- Walks ----------

  lemma FullPage(rows: seq<Row>, cursor: Option<Row>, n: nat, left: seq<Row>)
    requires left == After(rows, cursor) && |left| > n
    ensures PageOf(rows, cursor, n) == Page(left[..n], Some(left[n]))
  {
    var found := Limit(left, n + 1);
    assert |found| == n + 1 && found[..n] == left[..n] && found[n] == left[n];
  }

  /** A client that follows next_cursor until there is none. */
  function Walk(rows: seq<Row>, cursor: Option<Row>, n: nat): seq<Page>
    requires StrictlySorted(rows)
    decreases |After(rows, cursor)|
  {
    var page := PageOf(rows, cursor, n);
    if page.next.None? then [page]
    else
      AfterAgain(rows, cursor, n);
      [page] + Walk(rows, page.next, n)
  }

  /** The same walk on the rows that are left: each page takes n rows and drops one. */
  function Cut(left: seq<Row>, n: nat): seq<Page>
    decreases |left|
  {
    if |left| <= n then [Page(left, None)]
    else [Page(left[..n], Some(left[n]))] + Cut(left[n + 1..], n)
  }

  lemma {:induction false} WalkIsCut(rows: seq<Row>, cursor: Option<Row>, n: nat)
    requires StrictlySorted(rows)
    ensures Walk(rows, cursor, n) == Cut(After(rows, cursor), n)
    decreases |After(rows, cursor)|
  {
    var page := PageOf(rows, cursor, n);
    var left := After(rows, cursor);
    if |left| > n {
      AfterAgain(rows, cursor, n);
      FullPage(rows, cursor, n, left);
      WalkIsCut(rows, page.next, n);
      assert Walk(rows, cursor, n) == [page] + Walk(rows, page.next, n);
    }
  }

  function Min(a: int, b: int): int { if a < b then a else b }

  /** Where page k starts. */
  function Offset(n: nat, k: nat): nat {
    if k == 0 then 0 else Offset(n, k - 1) + n + 1
  }

  lemma {:induction false} OffsetIsProduct(n: nat, k: nat)
    ensures Offset(n, k) == k * (n + 1)
  {
    if k > 0 {
      OffsetIsProduct(n, k - 1);
      assert k * (n + 1) == (k - 1) * (n + 1) + (n + 1);
    }
  }

  lemma {:induction false} CutCount(left: seq<Row>, n: nat)
    ensures |Cut(left, n)| == |left| / (n + 1) + 1
    decreases |left|
  {
    if |left| > n {
      CutCount(left[n + 1..], n);
      StepQuotient(|left| - (n + 1), n + 1);
    } else {
      Quotient(|left|, n + 1, 0, |left|);
    }
  }

  /** The page that starts at row `lo`. */
  function PageAt(left: seq<Row>, n: nat, lo: nat): Page
    requires lo <= |left|
  {
    Page(left[lo..Min(lo + n, |left|)], if lo + n < |left| then Some(left[lo + n]) else None)
  }

  lemma ShiftPage(left: seq<Row>, n: nat, m: nat, lo: nat)
    requires m + lo <= |left|
    ensures PageAt(left[m..], n, lo) == PageAt(left, n, m + lo)
  {
    assert left[m..][lo..Min(lo + n, |left| - m)] == left[m + lo..Min(m + lo + n, |left|)];
  }

  lemma {:induction false} CutShape(left: seq<Row>, n: nat, k: nat)
    requires k < |Cut(left, n)|
    ensures Offset(n, k) <= |left| && Cut(left, n)[k] == PageAt(left, n, Offset(n, k))
    decreases |left|
  {
    if k == 0 {
      assert PageAt(left, n, 0).items == if |left| <= n then left else left[..n];
    } else {
      CutShape(left[n + 1..], n, k - 1);
      ShiftPage(left, n, n + 1, Offset(n, k - 1));
    }
  }

  lemma WholeWalkIsCut(rows: seq<Row>, n: nat)
    requires StrictlySorted(rows)
    ensures Walk(rows, None, n) == Cut(rows, n)
  {
    WalkIsCut(rows, None, n);
    AfterWholeSuffix(rows, None);
  }

  lemma CutPages(rows: seq<Row>, n: nat, k: nat)
    ensures |Cut(rows, n)| == |rows| / (n + 1) + 1
    ensures k < |Cut(rows, n)| ==> 0 <= k * (n + 1) <= |rows|
    ensures k < |Cut(rows, n)| ==> Cut(rows, n)[k] == PageAt(rows, n, k * (n + 1))
  {
    CutCount(rows, n);
    if k < |Cut(rows, n)| {
      CutShape(rows, n, k);
      OffsetIsProduct(n, k);
    }
  }

  /** Exact pagination law: how many pages a walk has, and what each one holds. */
  lemma ExactPages(rows: seq<Row>, n: nat, k: nat)
    requires StrictlySorted(rows)
    ensures |Walk(rows, None, n)| == |rows| / (n + 1) + 1
    ensures k < |Walk(rows, None, n)| ==> 0 <= k * (n + 1) <= |rows|
    ensures k < |Walk(rows, None, n)| ==>
              && Walk(rows, None, n)[k].items == rows[k * (n + 1)..Min(k * (n + 1) + n, |rows|)]
              && Walk(rows, None, n)[k].next == if k * (n + 1) + n < |rows| then Some(rows[k * (n + 1) + n]) else None
  {
    WholeWalkIsCut(rows, n);
    CutPages(rows, n, k);
  }

  predicate Returned(pages: seq<Page>, r: Row) {
    exists k, j :: 0 <= k < |pages| && 0 <= j < |pages[k].items| && pages[k].items[j] == r
  }

  /** The position of row i within its block of n + 1 rows. */
  function Slot(n: nat, i: nat): nat {
    if i <= n then i else Slot(n, i - (n + 1))
  }

  lemma {:induction false} SlotIsRemainder(n: nat, i: nat)
    ensures Slot(n, i) == i % (n + 1)
    decreases i
  {
    if i <= n {
      Quotient(i, n + 1, 0, i);
    } else {
      SlotIsRemainder(n, i - (n + 1));
      StepQuotient(i - (n + 1), n + 1);
    }
  }

  lemma {:induction false} CutReturns(left: seq<Row>, n: nat, i: nat)
    requires StrictlySorted(left) && i < |left|
    ensures Returned(Cut(left, n), left[i]) <==> Slot(n, i) < n
    decreases |left|
  {
    var pages := Cut(left, n);
    if |left| <= n {
      assert pages[0].items[i] == left[i];
    } else {
      var rest := left[n + 1..];
      ReturnedInRest(left, n, left[i]);
      NotAgain(left, i);
      if i < n {
        assert left[..n][i] == left[i];
      } else if i == n {
        NotReturnedLater(rest, n, left[i]);
      } else {
        assert rest[i - (n + 1)] == left[i];
        CutReturns(rest, n, i - (n + 1));
      }
    }
  }

  lemma NotAgain(left: seq<Row>, i: nat)
    requires StrictlySorted(left) && i < |left|
    ensures left[i] !in left[..i] && left[i] !in left[i + 1..]
  {}

  lemma ReturnedCons(p: Page, rest: seq<Page>, r: Row)
    ensures Returned([p] + rest, r) <==> r in p.items || Returned(rest, r)
  {
    var pages := [p] + rest;
    if Returned(rest, r) {
      var k, j :| 0 <= k < |rest| && 0 <= j < |rest[k].items| && rest[k].items[j] == r;
      assert pages[k + 1].items[j] == r;
    }
    if r in p.items {
      assert pages[0] == p;
    }
  }

  lemma ReturnedInRest(left: seq<Row>, n: nat, r: Row)
    requires |left| > n
    ensures Returned(Cut(left, n), r) <==> r in left[..n] || Returned(Cut(left[n + 1..], n), r)
  {
    ReturnedCons(Page(left[..n], Some(left[n])), Cut(left[n + 1..], n), r);
  }

  lemma {:induction false} NotReturnedLater(left: seq<Row>, n: nat, r: Row)
    requires r !in left
    ensures !Returned(Cut(left, n), r)
    decreases |left|
  {
    if |left| > n {
      ReturnedInRest(left, n, r);
      NotReturnedLater(left[n + 1..], n, r);
    }
  }

  /** The rows a walk never returns are exactly the look-ahead rows. */
  lemma MissedAreLookAheads(rows: seq<Row>, n: nat, i: nat)
    requires StrictlySorted(rows) && i < |rows|
    ensures !Returned(Walk(rows, None, n), rows[i]) <==> i % (n + 1) == n
  {
    WalkIsCut(rows, None, n);
    AfterWholeSuffix(rows, None);
    CutReturns(rows, n, i);
    SlotIsRemainder(n, i);
  }

  /** So a walk returns every row exactly when the whole list fits in one page. */
  lemma CompleteIffOnePage(rows: seq<Row>, n: nat)
    requires StrictlySorted(rows)
    ensures (forall i :: 0 <= i < |rows| ==> Returned(Walk(rows, None, n), rows[i])) <==> |rows| <= n
  {
    if |rows| > n {
      MissedAreLookAheads(rows, n, n);
      Quotient(n, n + 1, 0, n);
    } else {
      forall i | 0 <= i < |rows| ensures Returned(Walk(rows, None, n), rows[i]) {
        MissedAreLookAheads(rows, n, i);
        Quotient(i, n + 1, 0, i);
      }
    }
  }

  /** Two rows and a limit of one are enough to miss a row. */
  lemma WalkMissesARow()
    ensures exists rows, n, r :: StrictlySorted(rows) && n >= 1 && r in rows && !Returned(Walk(rows, None, n), r)
  {
    var rows := [Row(2, 0), Row(1, 0)];
    assert StrictlySorted(rows) && rows[1] in rows;
    MissedAreLookAheads(rows, 1, 1);
  }

  /** Nothing repeats: a row appears at one place of one page. */
  lemma NothingRepeats(rows: seq<Row>, n: nat, k: nat, j: nat, k': nat, j': nat)
    requires StrictlySorted(rows)
    requires var p := Walk(rows, None, n); k < |p| && j < |p[k].items| && k' < |p| && j' < |p[k'].items|
    requires Walk(rows, None, n)[k].items[j] == Walk(rows, None, n)[k'].items[j']
    ensures k == k' && j == j'
  {
    WalkIsCut(rows, None, n);
    AfterWholeSuffix(rows, None);
    ItemAt(rows, n, k, j);
    ItemAt(rows, n, k', j');
    SamePlace(rows, Offset(n, k) + j, Offset(n, k') + j');
    OffsetUnique(n, k, j, k', j');
  }

  lemma ItemAt(left: seq<Row>, n: nat, k: nat, j: nat)
    requires k < |Cut(left, n)| && j < |Cut(left, n)[k].items|
    ensures j < n && Offset(n, k) + j < |left| && Cut(left, n)[k].items[j] == left[Offset(n, k) + j]
  {
    CutShape(left, n, k);
    var lo := Offset(n, k);
    var hi := Min(lo + n, |left|);
    assert Cut(left, n)[k].items == left[lo..hi];
  }

  lemma OffsetUnique(n: nat, k: nat, j: nat, k': nat, j': nat)
    requires j < n && j' < n && Offset(n, k) + j == Offset(n, k') + j'
    ensures k == k' && j == j'
  {
    OffsetIsProduct(n, k);
    OffsetIsProduct(n, k');
    Quotient(Offset(n, k) + j, n + 1, k, j);
    Quotient(Offset(n, k') + j', n + 1, k', j');
  }

  lemma SamePlace(rows: seq<Row>, a: int, b: int)
    requires StrictlySorted(rows) && 0 <= a < |rows| && 0 <= b < |rows| && rows[a] == rows[b]
    ensures a == b
  {}

  /** Rows that arrive or leave at or above the cursor do not change the rest of the walk. */
  lemma NewerRowsChangeNothing(rows: seq<Row>, rows': seq<Row>, c: Row, n: nat)
    requires StrictlySorted(rows) && StrictlySorted(rows')
    requires forall r :: Before(c, r) ==> (r in rows <==> r in rows')
    ensures Walk(rows', Some(c), n) == Walk(rows, Some(c), n)
  {
    WalkIsCut(rows, Some(c), n);
    WalkIsCut(rows', Some(c), n);
    AfterMembers(rows, Some(c));
    AfterMembers(rows', Some(c));
    SortedSameRows(After(rows, Some(c)), After(rows', Some(c)));
  }

  // ---------- The cursor the idiom does not take ----------

  lemma LeftAfterPage(rows: seq<Row>, cursor: Option<Row>, n: nat)
    requires StrictlySorted(rows) && n >= 1
    ensures var page := PageOf(rows, cursor, n);
            var left := After(rows, cursor);
            if page.next.None? then page.items == left
            else |page.items| == n < |left| && page.items + After(rows, Some(page.items[n - 1])) == left
                 && |After(rows, Some(page.items[n - 1]))| < |left|
  {
    var left := After(rows, cursor);
    if |left| > n {
      FullPage(rows, cursor, n, left);
      AfterAgain(rows, cursor, n - 1);
      assert left == left[..n] + left[n..];
    } else {
      ShortPage(rows, cursor, n);
    }
  }

  lemma ShortPage(rows: seq<Row>, cursor: Option<Row>, n: nat)
    requires |After(rows, cursor)| <= n
    ensures PageOf(rows, cursor, n) == Page(After(rows, cursor), None)
  {}

  /** The walk with the last kept row as cursor instead of the popped one returns all that is left. */
  function WalkKeeping(rows: seq<Row>, cursor: Option<Row>, n: nat): (all: seq<Row>)
    requires StrictlySorted(rows) && n >= 1
    ensures all == After(rows, cursor)
    decreases |After(rows, cursor)|
  {
    LeftAfterPage(rows, cursor, n);
    var page := PageOf(rows, cursor, n);
    if page.next.None? then page.items else page.items + WalkKeeping(rows, Some(page.items[n - 1]), n)
  }

  /** A cursor taken from the last kept row would return the whole list, in order. */
  lemma KeepingReturnsEverything(rows: seq<Row>, n: nat)
    requires StrictlySorted(rows) && n >= 1
    ensures WalkKeeping(rows, None, n) == rows
  {
    AfterWholeSuffix(rows, None);
  }
}
