/** listGroups of apps/api/src/grouping/grouping.service.ts: pages of groups with free seats, over a fixed table. */
module GroupPages {
  import opened Wrappers

  const GROUP_PAGE_SIZE: nat := 20
  const GROUP_SCAN_BATCH_LIMIT: nat := 5

  /** A recruitable group of the route and window, in creation order. */
  datatype Row = Row(id: nat, occupiedSeats: int)
  datatype Page = Page(items: seq<Row>, nextCursor: Option<nat>)

  predicate Distinct(table: seq<Row>) {
    forall i, j :: 0 <= i < j < |table| ==> table[i].id != table[j].id
  }

  predicate Free(row: Row) {
    4 - row.occupiedSeats > 0
  }

  /** The rows with free seats, in order. */
  function FreeRows(rows: seq<Row>): seq<Row> {
    if rows == [] then []
    else FreeRows(rows[..|rows| - 1]) + if Free(rows[|rows| - 1]) then [rows[|rows| - 1]] else []
  }

  /** Where the rows after a cursor begin; past the end if no row has the cursor's id. */
  function After(table: seq<Row>, cursor: Option<nat>): (from: nat)
    ensures from <= |table|
  {
    match cursor
    case None => 0
    case Some(id) => if exists i :: 0 <= i < |table| && table[i].id == id then IndexOf(table, id) + 1 else |table|
  }

  function IndexOf(table: seq<Row>, id: nat): (i: nat)
    requires exists i :: 0 <= i < |table| && table[i].id == id
    ensures i < |table| && table[i].id == id
  {
    if table[0].id == id then 0 else
      assert exists i :: 0 <= i < |table[1..]| && table[1..][i].id == id by {
        var i :| 0 <= i < |table| && table[i].id == id;
        assert table[1..][i - 1].id == id;
      }
      1 + IndexOf(table[1..], id)
  }

  lemma AfterRow(table: seq<Row>, i: nat)
    requires Distinct(table) && i < |table|
    ensures After(table, Some(table[i].id)) == i + 1
  {
    var j := IndexOf(table, table[i].id);
    assert table[j].id == table[i].id;
  }

  lemma {:induction false} FreeRowsSplit(left: seq<Row>, right: seq<Row>)
    ensures FreeRows(left + right) == FreeRows(left) + FreeRows(right)
  {
    if right == [] {
      assert left + right == left;
      assert FreeRows(left) + [] == FreeRows(left);
    } else {
      var n := |right| - 1;
      FreeRowsSplit(left, right[..n]);
      assert (left + right)[..|left + right| - 1] == left + right[..n];
    }
  }

  lemma FreeRowsNext(table: seq<Row>, from: nat, to: nat)
    requires from <= to < |table|
    ensures FreeRows(table[from..to + 1]) == FreeRows(table[from..to]) + if Free(table[to]) then [table[to]] else []
  {
    assert table[from..to + 1][..to - from] == table[from..to];
  }

  /** The end of the rows a page has scanned. */
  function Scanned(table: seq<Row>, page: Page): nat {
    if page.nextCursor.Some? then After(table, page.nextCursor) else |table|
  }

  /** findMany: up to one row more than a page, after a cursor. */
  function Batch(table: seq<Row>, from: nat): (rows: seq<Row>)
    requires from <= |table|
  {
    if from + GROUP_PAGE_SIZE + 1 <= |table| then table[from..from + GROUP_PAGE_SIZE + 1] else table[from..]
  }

  lemma NoRows(table: seq<Row>, from: nat)
    requires from <= |table|
    ensures FreeRows(table[from..from]) == []
  {
  }

  lemma LastPage(table: seq<Row>)
    ensures forall items :: Scanned(table, Page(items, None)) == |table|
    ensures forall items, id :: Scanned(table, Page(items, Some(id))) == After(table, Some(id))
  {
  }

  /**
   * A page holds exactly the free rows between its cursor and the next, and the next lies strictly further on. It holds
   * less than twenty only at the end of the table or after five batches of twenty-one rows.
   */
  method ListGroups(table: seq<Row>, cursor: Option<nat>) returns (page: Page)
    requires Distinct(table)
    ensures |page.items| <= GROUP_PAGE_SIZE
    ensures After(table, cursor) <= Scanned(table, page)
    ensures page.items == FreeRows(table[After(table, cursor)..Scanned(table, page)])
    ensures page.nextCursor.Some? ==> After(table, cursor) < Scanned(table, page) &&
                                      exists i :: 0 <= i < |table| && table[i].id == page.nextCursor.value
    ensures |page.items| == 20 || Scanned(table, page) == |table| || Scanned(table, page) == After(table, cursor) + 105
  {
    hide FreeRows, After, Distinct, Scanned;
    var from := After(table, cursor);
    NoRows(table, from);
    LastPage(table);
    var items: seq<Row> := [];
    var scanCursor := cursor;
    ghost var at := from;
    for batchIndex := 0 to GROUP_SCAN_BATCH_LIMIT
      invariant from <= at <= |table| && After(table, scanCursor) == at && at == from + 21 * batchIndex
      invariant items == FreeRows(table[from..at]) && |items| < GROUP_PAGE_SIZE
      invariant at == from ==> scanCursor == cursor && batchIndex == 0
      invariant at > from ==> scanCursor == Some(table[at - 1].id)
    {
      ghost var start := at;
      var groups := Batch(table, After(table, scanCursor));
      for index := 0 to |groups|
        invariant at == start + index <= |table| && After(table, scanCursor) == at
        invariant items == FreeRows(table[from..at]) && |items| < GROUP_PAGE_SIZE
        invariant at == from ==> scanCursor == cursor && batchIndex == 0
        invariant at > from ==> scanCursor == Some(table[at - 1].id)
      {
        assert groups[index] == table[at];
        AfterRow(table, at);
        FreeRowsNext(table, from, at);
        scanCursor := Some(groups[index].id);
        at := at + 1;
        if 4 - groups[index].occupiedSeats > 0 {
          items := items + [groups[index]];
        }
        if |items| == GROUP_PAGE_SIZE {
          var hasMore := index < |groups| - 1 || |groups| > GROUP_PAGE_SIZE;
          return Page(items, if hasMore then scanCursor else None);
        }
      }
      if |groups| <= GROUP_PAGE_SIZE {
        return Page(items, None);
      }
    }
    return Page(items, scanCursor);
  }

  /** Following the cursors from the start returns every group with free seats once, in order, and ends. */
  method ListAll(table: seq<Row>) returns (all: seq<Row>, pages: nat)
    requires Distinct(table)
    ensures all == FreeRows(table)
    ensures pages <= |table| + 1
  {
    var page := ListGroups(table, None);
    all, pages := page.items, 1;
    while page.nextCursor.Some?
      invariant all == FreeRows(table[..Scanned(table, page)])
      invariant pages <= Scanned(table, page) + 1 && (page.nextCursor.Some? ==> pages <= Scanned(table, page))
      decreases |table| - Scanned(table, page), page.nextCursor.Some?
    {
      ghost var done := Scanned(table, page);
      page := ListGroups(table, page.nextCursor);
      ghost var next := Scanned(table, page);
      FreeRowsSplit(table[..done], table[done..next]);
      assert table[..next] == table[..done] + table[done..next];
      all := all + page.items;
      pages := pages + 1;
    }
    assert table[..|table|] == table;
  }

  /** The rows kept are the free rows and no others. */
  lemma {:induction false} FreeRowsAre(rows: seq<Row>)
    ensures forall row :: row in FreeRows(rows) <==> row in rows && row.occupiedSeats < 4
    ensures |FreeRows(rows)| <= |rows|
  {
    if rows != [] {
      var n := |rows| - 1;
      FreeRowsAre(rows[..n]);
      assert rows == rows[..n] + [rows[n]];
    }
  }
}
