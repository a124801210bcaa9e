// Keyset pagination of an owner's tunnels: the server's page query and the client's loop over pages,
// while other requests insert rows between the pages.

module Pagination {
  import opened Prelude

  const DEFAULT_LIMIT := 50
  const MAX_LIMIT := 100

  /** Microseconds from the zero time, 1 January of year 1, to 1 January of year 9999. */
  const FAR_FUTURE: nat := 3_651_694 * 86_400_000_000

  datatype Row = Row(createdAt: nat, id: string)

  // ----- the order of the listing -----

  predicate IdLess(a: string, b: string) {
    if b == "" then false
    else a == "" || a[0] < b[0] || (a[0] == b[0] && IdLess(a[1..], b[1..]))
  }

  /** (created_at, id) < (created_at, id) */
  predicate Below(a: Row, b: Row) {
    a.createdAt < b.createdAt || (a.createdAt == b.createdAt && IdLess(a.id, b.id))
  }

  /** The order of IDs is that of their first difference, a proper prefix coming first. */
  lemma {:induction false} IdOrder(a: string, b: string)
    ensures IdLess(a, b) <==>
              a < b || exists i :: 0 <= i < |a| && i < |b| && a[..i] == b[..i] && a[i] < b[i]
  {
    if a != "" && b != "" {
      IdOrder(a[1..], b[1..]);
      assert a == [a[0]] + a[1..] && b == [b[0]] + b[1..];
      if a[0] == b[0] {
        if i :| 0 <= i < |a[1..]| && i < |b[1..]| && a[1..][..i] == b[1..][..i] && a[1..][i] < b[1..][i] {
          assert a[..i + 1] == [a[0]] + a[1..][..i] && b[..i + 1] == [b[0]] + b[1..][..i];
          assert a[i + 1] < b[i + 1];
        }
        if i :| 0 < i < |a| && i < |b| && a[..i] == b[..i] && a[i] < b[i] {
          assert a[1..][..i - 1] == a[..i][1..] && b[1..][..i - 1] == b[..i][1..];
          assert a[1..][i - 1] < b[1..][i - 1];
        }
      }
    }
  }

  lemma {:induction false} IdIrreflexive(a: string)
    ensures !IdLess(a, a)
  {
    if a != "" { IdIrreflexive(a[1..]); }
  }

  lemma {:induction false} IdTransitive(a: string, b: string, c: string)
    requires IdLess(a, b) && IdLess(b, c)
    ensures IdLess(a, c)
  {
    if a != "" && a[0] == b[0] && b[0] == c[0] { IdTransitive(a[1..], b[1..], c[1..]); }
  }

  lemma {:induction false} IdTotal(a: string, b: string)
    ensures IdLess(a, b) || a == b || IdLess(b, a)
  {
    if a != "" && b != "" && a[0] == b[0] {
      IdTotal(a[1..], b[1..]);
      assert a == [a[0]] + a[1..] && b == [b[0]] + b[1..];
    }
  }

  lemma BelowOrders(a: Row, b: Row)
    ensures !Below(a, a)
    ensures Below(a, b) || a == b || Below(b, a)
    ensures Below(a, b) ==> !Below(b, a)
  {
    IdIrreflexive(a.id);
    IdTotal(a.id, b.id);
    if Below(a, b) && Below(b, a) { IdTransitive(a.id, b.id, a.id); }
  }

  lemma BelowTransitive(a: Row, b: Row, c: Row)
    requires Below(a, b) && Below(b, c)
    ensures Below(a, c)
  {
    if a.createdAt == b.createdAt == c.createdAt { IdTransitive(a.id, b.id, c.id); }
  }

  predicate Descending(rows: seq<Row>) {
    forall i, j :: 0 <= i < j < |rows| ==> Below(rows[j], rows[i])
  }

  predicate Greatest(m: Row, rows: set<Row>) {
    m in rows && forall r :: r in rows && r != m ==> Below(r, m)
  }

  lemma {:induction false} HasGreatest(rows: set<Row>)
    requires rows != {}
    ensures exists m :: Greatest(m, rows)
  {
    var x :| x in rows;
    var rest := rows - {x};
    if rest == {} {
      assert rows == {x};
      assert Greatest(x, rows);
    } else {
      HasGreatest(rest);
      var m :| Greatest(m, rest);
      BelowOrders(m, x);
      if Below(m, x) {
        forall r | r in rows && r != x ensures Below(r, x) { if r != m { BelowTransitive(r, m, x); } }
        assert Greatest(x, rows);
      } else {
        assert Greatest(m, rows);
      }
    }
  }

  lemma OneGreatest(rows: set<Row>)
    ensures forall m, n :: Greatest(m, rows) && Greatest(n, rows) ==> m == n
  {
    forall m, n | Greatest(m, rows) && Greatest(n, rows) ensures m == n { BelowOrders(m, n); }
  }

  /** ORDER BY created_at DESC, id DESC LIMIT n */
  function Top(rows: set<Row>, n: nat): seq<Row> {
    if n == 0 || rows == {} then []
    else
      HasGreatest(rows);
      OneGreatest(rows);
      var m :| m in rows && Greatest(m, rows);
      [m] + Top(rows - {m}, n - 1)
  }

  lemma {:induction false} TopShape(rows: set<Row>, n: nat)
    ensures var top := Top(rows, n);
            && Descending(top) && |top| == (if n < |rows| then n else |rows|)
            && (forall r :: r in top ==> r in rows)
            && (forall r, x :: r in rows && r !in top && x in top ==> Below(r, x))
  {
    if n > 0 && rows != {} {
      HasGreatest(rows);
      var top := Top(rows, n);
      var m := top[0];
      TopShape(rows - {m}, n - 1);
      assert top[1..] == Top(rows - {m}, n - 1);
    }
  }

  // ----- one page -----

  datatype Page = Page(rows: seq<Row>, next: Option<Row>)

  /** A missing cursor stands for the far-future sentinel. */
  function Bound(cursor: Option<Row>): Row {
    match cursor
    case None => Row(FAR_FUTURE, "\U{FFFF}")
    case Some(c) => c
  }

  function Under(table: set<Row>, cursor: Option<Row>): set<Row> {
    set r | r in table && Below(r, Bound(cursor))
  }

  function PageOf(table: set<Row>, cursor: Option<Row>, limit: nat): Page
    requires limit > 0
  {
    TopShape(Under(table, cursor), limit + 1);
    var entries := Top(Under(table, cursor), limit + 1);
    if |entries| > limit then Page(entries[..limit], Some(entries[limit - 1])) else Page(entries, None)
  }

  /** A page descends strictly below its cursor and skips nothing above the next one. */
  lemma PageShape(table: set<Row>, cursor: Option<Row>, limit: nat)
    requires limit > 0
    ensures var page := PageOf(table, cursor, limit);
            && Descending(page.rows) && |page.rows| <= limit
            && (forall r :: r in page.rows ==> r in table && Below(r, Bound(cursor)))
            && (page.next.Some? ==> |page.rows| == limit && page.next == Some(page.rows[limit - 1]))
            && (forall r :: r in table && Below(r, Bound(cursor)) && r !in page.rows ==>
                  page.next.Some? && Below(r, page.next.value))
  {
    var under, page := Under(table, cursor), PageOf(table, cursor, limit);
    var entries := Top(under, limit + 1);
    TopShape(under, limit + 1);
    forall r | r in page.rows ensures r in under { assert r in entries; }
    forall r | r in table && Below(r, Bound(cursor)) && r !in page.rows
      ensures page.next.Some? && Below(r, page.next.value)
    {
      RowBelowPage(entries, under, limit, r);
    }
  }

  /** A row the page leaves out lies below the page's last row. */
  lemma RowBelowPage(entries: seq<Row>, under: set<Row>, limit: nat, r: Row)
    requires limit > 0 && entries == Top(under, limit + 1) && r in under
    requires |entries| > limit ==> r !in entries[..limit]
    requires |entries| <= limit ==> r !in entries
    ensures |entries| > limit && Below(r, entries[limit - 1])
  {
    TopShape(under, limit + 1);
    assert |entries| > limit ==> entries == entries[..limit] + [entries[limit]];
    if r !in entries {
      OutsideTop(under, limit + 1, r);
      assert entries[limit - 1] in entries;
    }
  }

  lemma {:induction false} OutsideTop(rows: set<Row>, n: nat, r: Row)
    requires r in rows && r !in Top(rows, n)
    ensures |Top(rows, n)| == n
  {
    if n > 0 { OutsideTop(rows - {Top(rows, n)[0]}, n - 1, r); }
  }

  datatype Param<+T> = Missing | Given(value: T) | Malformed

  datatype Response = BadRequest | Listed(page: Page)

  function ResolveLimit(limit: Param<int>): Option<nat> {
    match limit
    case Missing => Some(DEFAULT_LIMIT)
    case Given(n) => if n < 1 || n > MAX_LIMIT then None else Some(n)
    case Malformed => None
  }

  /** A cursor decodes to a row position; zero time and empty ID are refused. */
  predicate ValidCursor(cursor: Param<Row>) {
    match cursor
    case Missing => true
    case Given(c) => c.id != "" && c.createdAt != 0
    case Malformed => false
  }

  function CursorOf(cursor: Param<Row>): Option<Row> {
    if cursor.Given? then Some(cursor.value) else None
  }

  /** GET /v1/tunnels against the rows its query sees. */
  method ListTunnels(table: set<Row>, limitParam: Param<int>, cursorParam: Param<Row>) returns (r: Response)
    ensures r.BadRequest? <==> ResolveLimit(limitParam).None? || !ValidCursor(cursorParam)
    ensures r.Listed? ==> r.page == PageOf(table, CursorOf(cursorParam), ResolveLimit(limitParam).value)
    ensures r.BadRequest? <==>
              || limitParam.Malformed? || (limitParam.Given? && !(1 <= limitParam.value <= 100))
              || cursorParam.Malformed?
              || (cursorParam.Given? && (cursorParam.value.id == "" || cursorParam.value.createdAt == 0))
    ensures r.Listed? ==>
              var limit, cursor := if limitParam.Given? then limitParam.value else 50,
                                   if cursorParam.Given? then Some(cursorParam.value) else None;
              r.page == PageOf(table, cursor, limit)
  {
    var limit := ResolveLimit(limitParam);
    if limit.None? || !ValidCursor(cursorParam) { return BadRequest; }
    var found := Top(Under(table, CursorOf(cursorParam)), limit.value + 1);
    var entries: seq<Row> := [];
    for i := 0 to |found|
      invariant entries == found[..i]
    {
      entries := entries + [found[i]];
    }
    var next: Option<Row> := None;
    if |entries| > limit.value {
      next := Some(entries[limit.value - 1]);
      entries := entries[..limit.value];
    }
    return Listed(Page(entries, next));
  }

  // ----- following the cursors -----

  /** The owner's rows as the successive page queries see them; nothing deletes a row. */
  ghost predicate Growing(tables: seq<set<Row>>) {
    && |tables| > 0
    && (forall i, j :: 0 <= i <= j < |tables| ==> tables[i] <= tables[j])
    && (forall i, r :: 0 <= i < |tables| && r in tables[i] ==> 0 < r.createdAt < FAR_FUTURE && r.id != "")
  }

  function TableAt(tables: seq<set<Row>>, n: nat): set<Row>
    requires |tables| > 0
  {
    if n < |tables| then tables[n] else tables[|tables| - 1]
  }

  datatype Listing = All(rows: seq<Row>) | Refused | NetworkFailure | RepeatedCursor

  function LimitParam(hint: int): Param<int> {
    if hint > 0 then Given(hint) else Missing
  }

  function CursorParam(cursor: Option<Row>): Param<Row> {
    match cursor
    case None => Missing
    case Some(c) => Given(c)
  }

  /** What a finished listing may return. */
  ghost predicate Complete(tables: seq<set<Row>>, rows: seq<Row>)
    requires |tables| > 0
  {
    && Descending(rows)
    && (forall r :: r in tables[0] ==> r in rows)
    && (forall r :: r in rows ==> r in tables[|tables| - 1])
  }

  /** Everything from the sentinel down to `cursor` is in `all`, in order, and nothing else. */
  ghost predicate ReadDownTo(tables: seq<set<Row>>, all: seq<Row>, cursor: Option<Row>)
    requires |tables| > 0
  {
    && Descending(all)
    && (forall r :: r in all ==> r in tables[|tables| - 1])
    && (cursor.None? ==> all == [])
    && (cursor.Some? ==> all != [] && cursor == Some(all[|all| - 1]))
    && (forall r :: r in tables[0] && !Below(r, Bound(cursor)) ==> r in all)
  }

  lemma TableBetween(tables: seq<set<Row>>, n: nat)
    requires Growing(tables)
    ensures tables[0] <= TableAt(tables, n) <= tables[|tables| - 1]
  {}

  lemma AppendPage(tables: seq<set<Row>>, all: seq<Row>, cursor: Option<Row>, n: nat, limit: nat)
    requires Growing(tables) && ReadDownTo(tables, all, cursor) && limit > 0
    ensures var page := PageOf(TableAt(tables, n), cursor, limit);
            && (page.next.None? ==> Complete(tables, all + page.rows))
            && (page.next.Some? ==>
                  && ReadDownTo(tables, all + page.rows, page.next)
                  && Below(page.next.value, Bound(cursor))
                  && page.next.value in tables[|tables| - 1])
  {
    var table := TableAt(tables, n);
    var page := PageOf(table, cursor, limit);
    TableBetween(tables, n);
    PageShape(table, cursor, limit);
    var more := all + page.rows;
    DescendingAppend(all, page.rows, cursor);
    forall r | r in tables[0] && (page.next.Some? ==> !Below(r, page.next.value)) ensures r in more {
      if Below(r, Bound(cursor)) { assert r in page.rows; }
    }
  }

  lemma DescendingAppend(all: seq<Row>, rows: seq<Row>, cursor: Option<Row>)
    requires Descending(all) && Descending(rows)
    requires cursor.None? ==> all == []
    requires cursor.Some? ==> all != [] && cursor == Some(all[|all| - 1])
    requires forall r :: r in rows ==> Below(r, Bound(cursor))
    ensures Descending(all + rows)
  {
    var more := all + rows;
    forall i, j | 0 <= i < j < |more| ensures Below(more[j], more[i]) {
      if i < |all| <= j {
        assert more[j] in rows;
        if i < |all| - 1 { BelowTransitive(more[j], all[|all| - 1], all[i]); }
      }
    }
  }

  lemma UnderShrinks(final: set<Row>, cursor: Option<Row>, next: Row)
    requires next in final && Below(next, Bound(cursor))
    ensures Under(final, Some(next)) < Under(final, cursor)
  {
    forall r | r in Under(final, Some(next)) ensures r in Under(final, cursor) {
      BelowTransitive(r, next, Bound(cursor));
    }
    BelowOrders(next, next);
    assert next in Under(final, cursor) && next !in Under(final, Some(next));
  }

  /** The client's loop; `lost` holds the exchanges that fail even after their retries. */
  method ListTunnelsCtx(tables: seq<set<Row>>, hint: int, lost: set<nat>) returns (r: Listing)
    requires Growing(tables)
    ensures !r.RepeatedCursor?
    ensures r.All? ==> Complete(tables, r.rows)
    ensures r.All? ==> forall i, j :: 0 <= i < j < |r.rows| ==>
              || r.rows[i].createdAt > r.rows[j].createdAt
              || (r.rows[i].createdAt == r.rows[j].createdAt && IdLess(r.rows[j].id, r.rows[i].id))
    ensures r.Refused? <==> hint > MAX_LIMIT && 0 !in lost
    ensures r.NetworkFailure? ==> lost != {}
  {
    var all: seq<Row> := [];
    var cursor: Option<Row> := None;
    var seen: set<Row> := {};
    var n := 0;
    ghost var final := tables[|tables| - 1];
    while true
      invariant ReadDownTo(tables, all, cursor)
      invariant forall c :: c in seen ==> !Below(c, Bound(cursor))
      invariant cursor.Some? ==> cursor.value in final
      invariant hint > MAX_LIMIT ==> n == 0
      decreases Under(final, cursor)
    {
      if n in lost { return NetworkFailure; }
      var answer := ListTunnels(TableAt(tables, n), LimitParam(hint), CursorParam(cursor));
      if answer.BadRequest? { return Refused; }
      AppendPage(tables, all, cursor, n, ResolveLimit(LimitParam(hint)).value);
      all := all + answer.page.rows;
      if answer.page.next.None? { return All(all); }
      var next := answer.page.next.value;
      if next in seen { return RepeatedCursor; }
      ghost var before := cursor;
      seen := seen + {next};
      cursor := Some(next);
      n := n + 1;
      UnderShrinks(final, before, next);
      SeenAbove(seen, before, next);
    }
  }

  lemma SeenAbove(seen: set<Row>, cursor: Option<Row>, next: Row)
    requires Below(next, Bound(cursor)) && next in seen
    requires forall c :: c in seen && c != next ==> !Below(c, Bound(cursor))
    ensures forall c :: c in seen ==> !Below(c, next)
  {
    forall c | c in seen ensures !Below(c, next) {
      BelowOrders(next, next);
      if Below(c, next) { BelowTransitive(c, next, Bound(cursor)); }
    }
  }

  lemma {:induction false} TopAll(rows: set<Row>, r: Row)
    requires r in rows
    ensures r in Top(rows, |rows|)
  {
    var m := Top(rows, |rows|)[0];
    if r != m { TopAll(rows - {m}, r); }
  }

  lemma SameTail(a: seq<Row>, b: seq<Row>)
    requires a != [] && b != [] && a[0] == b[0] && Descending(a) && (forall r :: r in a ==> r in b)
    ensures forall r :: r in a[1..] ==> r in b[1..]
  {
    forall r | r in a[1..] ensures r in b[1..] {
      var i :| 0 < i < |a| && a[i] == r;
      BelowOrders(a[i], a[0]);
      assert r in b;
      assert b == [b[0]] + b[1..];
    }
  }

  lemma {:induction false} SameOrder(a: seq<Row>, b: seq<Row>)
    requires Descending(a) && Descending(b) && (forall r :: r in a <==> r in b)
    ensures a == b
  {
    assert a != [] ==> a[0] in b;
    assert b != [] ==> b[0] in a;
    if a != [] && b != [] {
      BelowOrders(a[0], b[0]);
      assert a[0] == b[0];
      SameTail(a, b);
      SameTail(b, a);
      SameOrder(a[1..], b[1..]);
    }
  }

  /** Over a table that does not change, a complete listing is the whole table in descending order. */
  lemma FixedTable(table: set<Row>, rows: seq<Row>)
    requires Complete([table], rows)
    ensures rows == Top(table, |table|)
  {
    TopShape(table, |table|);
    forall r | r in table ensures r in Top(table, |table|) { TopAll(table, r); }
    SameOrder(rows, Top(table, |table|));
  }
}
