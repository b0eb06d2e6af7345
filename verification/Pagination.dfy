/**
 Cursor pagination over a fixed event table (backend/app/platform_api.py, lines 444-469). Ids are
 primary keys of at least three characters (backend/app/schemas/telemetry.py, line 9).
 */
module Pagination {
  import opened Base

  datatype Row = Row(id: string, tenant: string)

  datatype Page = Page(items: seq<string>, next: Option<string>)

  ghost predicate Table(rows: seq<Row>) {
    && (forall i :: 0 <= i < |rows| ==> rows[i].id != "")
    && forall i, j :: 0 <= i < j < |rows| ==> rows[i].id != rows[j].id
  }

  // ---- The query --------------------------------------------------------------------------------

  /** The tenant's events and, for a non-empty cursor, only those with a greater id. */
  predicate Selected(row: Row, tenant: string, cursor: Option<string>) {
    row.tenant == tenant && (Truthy(cursor) ==> Less(cursor.value, row.id))
  }

  function InsertId(ids: seq<string>, id: string): (r: seq<string>)
    ensures multiset(r) == multiset(ids) + multiset{id}
  {
    if ids == [] then [id]
    else
      assert ids == [ids[0]] + ids[1..];
      if LessEq(id, ids[0]) then [id] + ids else [ids[0]] + InsertId(ids[1..], id)
  }

  /** The selected ids in ascending order. */
  function Query(rows: seq<Row>, tenant: string, cursor: Option<string>): seq<string> {
    if rows == [] then []
    else
      var rest := Query(rows[1..], tenant, cursor);
      if Selected(rows[0], tenant, cursor) then InsertId(rest, rows[0].id) else rest
  }

  function Clamp(limit: int): nat {
    Max(1, Min(limit, 500))
  }

  function CursorEvents(rows: seq<Row>, tenant: string, cursor: Option<string>, limit: int): Page {
    var n := Clamp(limit);
    var all := Query(rows, tenant, cursor);
    var found := all[..Min(n + 1, |all|)];
    var page := found[..Min(n, |found|)];
    Page(page, if |found| > n then Some(page[|page| - 1]) else None)
  }

  // ---- The query's answer -------------------------------------------------------------------------

  ghost predicate Ascending(ids: seq<string>) {
    forall i, j :: 0 <= i < j < |ids| ==> Less(ids[i], ids[j])
  }

  lemma {:induction false} InsertIdAscending(ids: seq<string>, id: string)
    requires Ascending(ids) && id !in ids
    ensures Ascending(InsertId(ids, id))
  {
    if ids == [] {
    } else {
      if LessEq(id, ids[0]) {
        forall j | 0 <= j < |ids| ensures Less(id, ids[j]) {
          LessEqTotal(ids[0], ids[0]);
          LessEqTransitive(id, ids[0], ids[j]);
        }
      } else {
        LessEqTotal(id, ids[0]);
        var rest := InsertId(ids[1..], id);
        assert id !in ids[1..];
        InsertIdAscending(ids[1..], id);
        forall j | 0 <= j < |rest| ensures Less(ids[0], rest[j]) {
          assert rest[j] in multiset(rest);
          assert rest[j] == id || rest[j] in ids[1..];
        }
      }
    }
  }

  lemma {:induction false} QueryMembers(rows: seq<Row>, tenant: string, cursor: Option<string>, id: string)
    ensures id in Query(rows, tenant, cursor)
            <==> exists row :: row in rows && row.id == id && Selected(row, tenant, cursor)
  {
    if rows == [] {
    } else {
      var rest := Query(rows[1..], tenant, cursor);
      QueryMembers(rows[1..], tenant, cursor, id);
      assert rows == [rows[0]] + rows[1..];
      assert id in InsertId(rest, rows[0].id) <==> id in multiset(InsertId(rest, rows[0].id));
    }
  }

  lemma {:induction false} QueryAscending(rows: seq<Row>, tenant: string, cursor: Option<string>)
    requires Table(rows)
    ensures Ascending(Query(rows, tenant, cursor))
  {
    if rows == [] {
    } else {
      QueryAscending(rows[1..], tenant, cursor);
      QueryMembers(rows[1..], tenant, cursor, rows[0].id);
      InsertIdAscending(Query(rows[1..], tenant, cursor), rows[0].id);
    }
  }

  lemma TailMembers(ids: seq<string>, x: string)
    requires Ascending(ids) && ids != []
    ensures x in ids[1..] <==> x in ids && x != ids[0]
  {
  }

  lemma FirstIsMember(ids: seq<string>)
    ensures ids != [] ==> ids[0] in ids
  {
  }

  /** Two ascending sequences of the same ids are the same. */
  lemma {:induction false} AscendingUnique(a: seq<string>, b: seq<string>)
    requires Ascending(a) && Ascending(b) && forall x :: x in a <==> x in b
    ensures a == b
  {
    if a != [] {
      assert a[0] in b;
      assert b[0] in a;
      if a[0] != b[0] {
        LessEqAntisymmetric(a[0], b[0]);
      }
      forall x ensures x in a[1..] <==> x in b[1..] {
        TailMembers(a, x);
        TailMembers(b, x);
      }
      AscendingUnique(a[1..], b[1..]);
      assert a == [a[0]] + a[1..] && b == [b[0]] + b[1..];
    } else {
      FirstIsMember(b);
    }
  }

  /** Asking again after the `k`-th answer returns the rest of the answers. */
  lemma QueryContinues(rows: seq<Row>, tenant: string, cursor: Option<string>, k: nat)
    requires Table(rows) && 0 < k <= |Query(rows, tenant, cursor)|
    ensures var all := Query(rows, tenant, cursor);
            all[k - 1] != "" && Query(rows, tenant, Some(all[k - 1])) == all[k..]
  {
    var all := Query(rows, tenant, cursor);
    var last := all[k - 1];
    QueryAscending(rows, tenant, cursor);
    QueryAscending(rows, tenant, Some(last));
    QueryMembers(rows, tenant, cursor, last);
    forall x ensures x in Query(rows, tenant, Some(last)) <==> x in all[k..] {
      QueryMembers(rows, tenant, Some(last), x);
      QueryMembers(rows, tenant, cursor, x);
      LaterMembers(all, k, x);
      if Truthy(cursor) && Less(last, x) {
        LessThrough(cursor.value, last, x);
      }
    }
    AscendingUnique(Query(rows, tenant, Some(last)), all[k..]);
  }

  lemma LessThrough(a: string, b: string, c: string)
    requires Less(a, b) && Less(b, c)
    ensures Less(a, c)
  {
    LessEqTransitive(a, b, c);
    if a == c {
      LessEqAntisymmetric(a, b);
    }
  }

  /** In an ascending sequence, what follows a position is what is greater. */
  lemma LaterMembers(ids: seq<string>, k: nat, x: string)
    requires Ascending(ids) && 0 < k <= |ids|
    ensures x in ids[k..] <==> x in ids && Less(ids[k - 1], x)
  {
    if x in ids && Less(ids[k - 1], x) {
      var n :| 0 <= n < |ids| && ids[n] == x;
      if n < k - 1 {
        LessEqAntisymmetric(ids[n], ids[k - 1]);
      }
      assert n >= k;
      assert ids[k..][n - k] == x;
    }
  }

  // ---- One page -------------------------------------------------------------------------------------

  /** At least one event and at most 500. */
  function PageSize(limit: int): nat {
    if limit < 1 then 1 else if limit > 500 then 500 else limit
  }

  /** The id is of an event of the tenant, behind a non-empty cursor. */
  ghost predicate Behind(rows: seq<Row>, tenant: string, cursor: Option<string>, id: string) {
    && (exists row :: row in rows && row.id == id && row.tenant == tenant)
    && (cursor.Some? && cursor.value != "" ==> cursor.value != id && LessEq(cursor.value, id))
  }

  lemma BehindIff(rows: seq<Row>, tenant: string, cursor: Option<string>, id: string)
    ensures Behind(rows, tenant, cursor, id) <==> id in Query(rows, tenant, cursor)
  {
    QueryMembers(rows, tenant, cursor, id);
    if Behind(rows, tenant, cursor, id) {
      var row :| row in rows && row.id == id && row.tenant == tenant;
      assert Selected(row, tenant, cursor);
    }
  }

  /** The ids on a page and the cursor for the next one. */
  ghost predicate PageOf(rows: seq<Row>, tenant: string, cursor: Option<string>, size: nat, page: Page) {
    && Ascending(page.items) && |page.items| <= size
    && (forall id :: id in page.items ==> Behind(rows, tenant, cursor, id))
    && (forall id :: Behind(rows, tenant, cursor, id) && id !in page.items ==>
          page.next.Some? && Less(page.next.value, id))
    && (page.next.Some? ==>
          && |page.items| == size && size > 0 && page.next.value == page.items[size - 1]
          && exists id :: Behind(rows, tenant, cursor, id) && id !in page.items)
  }

  /** The ids behind the cursor, in order. */
  ghost predicate Lists(all: seq<string>, rows: seq<Row>, tenant: string, cursor: Option<string>) {
    Ascending(all) && forall id :: id in all <==> Behind(rows, tenant, cursor, id)
  }

  lemma LastPage(rows: seq<Row>, tenant: string, cursor: Option<string>, size: nat, all: seq<string>)
    requires Lists(all, rows, tenant, cursor) && |all| <= size
    ensures PageOf(rows, tenant, cursor, size, Page(all, None))
  {
  }

  lemma FullPage(rows: seq<Row>, tenant: string, cursor: Option<string>, size: nat, all: seq<string>)
    requires Lists(all, rows, tenant, cursor) && 0 < size < |all|
    ensures PageOf(rows, tenant, cursor, size, Page(all[..size], Some(all[size - 1])))
  {
    forall id | Behind(rows, tenant, cursor, id) && id !in all[..size] ensures Less(all[size - 1], id) {
      assert all == all[..size] + all[size..];
      LaterMembers(all, size, id);
    }
    assert Behind(rows, tenant, cursor, all[size]) && all[size] !in all[..size];
  }

  /**
   A page lists events of the tenant behind the cursor in id order. It leaves one out only if it is full, of
   the wanted size between 1 and 500, and then the next cursor is its last id, before all that are left out.
   */
  lemma PageIs(rows: seq<Row>, tenant: string, cursor: Option<string>, limit: int)
    requires Table(rows)
    ensures PageOf(rows, tenant, cursor, PageSize(limit), CursorEvents(rows, tenant, cursor, limit))
  {
    var all, n := Query(rows, tenant, cursor), PageSize(limit);
    QueryAscending(rows, tenant, cursor);
    forall id ensures id in all <==> Behind(rows, tenant, cursor, id) {
      BehindIff(rows, tenant, cursor, id);
    }
    if |all| > n {
      FullPage(rows, tenant, cursor, n, all);
    } else {
      LastPage(rows, tenant, cursor, n, all);
    }
    PageIsPrefix(rows, tenant, cursor, limit);
  }

  lemma PageIsPrefix(rows: seq<Row>, tenant: string, cursor: Option<string>, limit: int)
    ensures var all, n := Query(rows, tenant, cursor), PageSize(limit);
            CursorEvents(rows, tenant, cursor, limit)
            == if |all| > n then Page(all[..n], Some(all[n - 1])) else Page(all, None)
  {
  }

  // ---- Following the cursor -----------------------------------------------------------------------

  /** The pages a client collects by following `next_cursor` from `cursor` on. */
  ghost function Walk(rows: seq<Row>, tenant: string, cursor: Option<string>, limit: int): seq<Page>
    requires Table(rows)
    decreases |Query(rows, tenant, cursor)|
  {
    var page := CursorEvents(rows, tenant, cursor, limit);
    if page.next == None then [page]
    else
      QueryContinues(rows, tenant, cursor, Clamp(limit));
      [page] + Walk(rows, tenant, page.next, limit)
  }

  function Items(pages: seq<Page>): seq<string> {
    if pages == [] then [] else pages[0].items + Items(pages[1..])
  }

  /** The walk yields exactly what the query selects, in id order, each id once. */
  lemma {:induction false} WalkIsExact(rows: seq<Row>, tenant: string, cursor: Option<string>, limit: int)
    requires Table(rows)
    ensures Items(Walk(rows, tenant, cursor, limit)) == Query(rows, tenant, cursor)
    decreases |Query(rows, tenant, cursor)|
  {
    var n, all := Clamp(limit), Query(rows, tenant, cursor);
    var page := CursorEvents(rows, tenant, cursor, limit);
    if |all| > n {
      QueryContinues(rows, tenant, cursor, n);
      assert page.items == all[..n] && page.next == Some(all[n - 1]);
      WalkIsExact(rows, tenant, page.next, limit);
      assert Walk(rows, tenant, cursor, limit)[1..] == Walk(rows, tenant, page.next, limit);
      assert all == all[..n] + all[n..];
    } else {
      assert page.items == all;
      assert Items([page]) == page.items + Items([]);
    }
  }

  /** Every event of the tenant is returned exactly once, in id order, and nothing else is. */
  lemma WalkReturnsTenantEvents(rows: seq<Row>, tenant: string, limit: int)
    requires Table(rows)
    ensures var items := Items(Walk(rows, tenant, None, limit));
            && Ascending(items)
            && forall id :: id in items <==> exists row :: row in rows && row.id == id && row.tenant == tenant
  {
    WalkIsExact(rows, tenant, None, limit);
    QueryAscending(rows, tenant, None);
    var items := Items(Walk(rows, tenant, None, limit));
    forall id ensures id in items <==> exists row :: row in rows && row.id == id && row.tenant == tenant {
      QueryMembers(rows, tenant, None, id);
      if row :| row in rows && row.id == id && row.tenant == tenant {
        assert Selected(row, tenant, None);
      }
    }
  }

  /** What is left after the first page. */
  lemma WalkStep(rows: seq<Row>, tenant: string, cursor: Option<string>, limit: int) returns (next: Option<string>)
    requires Table(rows)
    ensures var n, all := PageSize(limit), |Query(rows, tenant, cursor)|;
            if all <= n then |Walk(rows, tenant, cursor, limit)| == 1
            else
              && |Query(rows, tenant, next)| == all - n
              && |Walk(rows, tenant, cursor, limit)| == 1 + |Walk(rows, tenant, next, limit)|
  {
    var n, all := PageSize(limit), Query(rows, tenant, cursor);
    next := CursorEvents(rows, tenant, cursor, limit).next;
    if |all| > n {
      QueryContinues(rows, tenant, cursor, n);
    }
  }

  /** The number of pages is max(1, ceil(n / size)). */
  lemma {:induction false} WalkPages(rows: seq<Row>, tenant: string, cursor: Option<string>, limit: int)
    requires Table(rows)
    ensures |Walk(rows, tenant, cursor, limit)|
            == Max(1, (|Query(rows, tenant, cursor)| + PageSize(limit) - 1) / PageSize(limit))
    decreases |Query(rows, tenant, cursor)|
  {
    var n, all := PageSize(limit), |Query(rows, tenant, cursor)|;
    var next := WalkStep(rows, tenant, cursor, limit);
    if all > n {
      WalkPages(rows, tenant, next, limit);
      CeilingStep(all, n);
    } else if all > 0 {
      CeilingOne(all, n);
    } else {
      CeilingNone(n);
    }
  }

  lemma CeilingStep(a: nat, n: nat)
    requires 0 < n < a
    ensures (a + n - 1) / n == 1 + (a - n + n - 1) / n && (a - n + n - 1) / n >= 1
  {
    var q, r := (a - 1) / n, (a - 1) % n;
    assert a - 1 == q * n + r;
    assert (q + 1) * n == q * n + n;
    QuotientUnique(a + n - 1, n, q + 1, r);
    Multiples(q, 1, n);
  }

  lemma QuotientUnique(a: nat, n: nat, q: nat, r: nat)
    requires 0 < n && r < n && a == q * n + r
    ensures a / n == q
  {
    assert a == (a / n) * n + a % n;
    Multiples(a / n, q, n);
    Multiples(q, a / n, n);
  }

  lemma Multiples(p: nat, q: nat, n: nat)
    ensures p < q ==> p * n + n <= q * n
  {
    if p < q {
      assert q * n == (p + 1) * n + (q - p - 1) * n;
    }
  }

  lemma CeilingOne(a: nat, n: nat)
    requires 0 < a <= n
    ensures (a + n - 1) / n == 1
  {
  }

  lemma CeilingNone(n: nat)
    requires 0 < n
    ensures (n - 1) / n == 0
  {
  }
}
