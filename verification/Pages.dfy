/**
 * Keyset pagination over an unchanging table: the cursor predicate selects the
 * rows strictly past the cursor, and walking the pages visits every matching
 * row exactly once, in order, when the sort keys are distinct and not null.
 */
module Pages {
  import opened Wrappers
  import opened Json
  import opened Sql
  import opened Query
  import opened Assembly

  /**
   * SQLite's comparison of values that are not NULL is a strict total order
   * with its converse and equality, and with NULL nothing compares.
   */
  ghost predicate OrderLaws(sem: Sem) {
    && (forall op: RelOp, x: SqlVal, y: SqlVal :: x.SqlNull? || y.SqlNull? ==> sem.compare(op, x, y) == Unknown)
    && (forall x: SqlVal, y: SqlVal :: !x.SqlNull? && !y.SqlNull? ==>
          && sem.compare(RelOp.Eq, x, y) == (if x == y then True else False)
          && sem.compare(RelOp.Gt, x, y) == sem.compare(RelOp.Lt, y, x)
          && sem.compare(RelOp.Lt, x, y) != Unknown
          && (sem.compare(RelOp.Lt, x, y) == True ==> sem.compare(RelOp.Lt, y, x) == False && x != y)
          && (x != y ==> sem.compare(RelOp.Lt, x, y) == True || sem.compare(RelOp.Lt, y, x) == True))
    && (forall x: SqlVal, y: SqlVal, z: SqlVal ::
          && !x.SqlNull? && !y.SqlNull? && !z.SqlNull?
          && sem.compare(RelOp.Lt, x, y) == True && sem.compare(RelOp.Lt, y, z) == True
          ==> sem.compare(RelOp.Lt, x, z) == True)
  }

  /** There is such a comparison: numbers before texts, texts by character. */
  lemma OrderLawsHold()
    ensures OrderLaws(PLAIN)
  {
    forall x: SqlVal, y: SqlVal, z: SqlVal
      ensures !(ValBefore(x, y) && ValBefore(y, x))
              && (x == y || x.SqlNull? || y.SqlNull? || ValBefore(x, y) || ValBefore(y, x))
              && (ValBefore(x, y) && ValBefore(y, z) ==> ValBefore(x, z))
    {
      if x.SqlText? && y.SqlText? { TextOrder(x.s, y.s, if z.SqlText? then z.s else ""); }
    }
  }

  /** Key `x` sorts strictly before key `y`: the smaller going up, the greater going down. */
  predicate KeyBefore(sem: Sem, orderBy: Option<(string, Order)>, x: SqlVal, y: SqlVal) {
    match Direction(orderBy)
    case Asc => sem.compare(RelOp.Lt, x, y) == True
    case Desc => sem.compare(RelOp.Lt, y, x) == True
  }

  /** Row `a` stands strictly before row `b`: by key, then by stream. */
  predicate RowBefore(sem: Sem, orderBy: Option<(string, Order)>, a: Row, b: Row) {
    var x, y := SortKey(sem, orderBy, a), SortKey(sem, orderBy, b);
    KeyBefore(sem, orderBy, x, y) || (x == y && KeyBefore(sem, orderBy, SqlText(a.stream), SqlText(b.stream)))
  }

  /** The cursor a caller makes from the last row of a page. */
  ghost predicate IsCursor(sem: Sem, orderBy: Option<(string, Order)>, after: After, row: Row) {
    sem.unwrap(sem.encode(after.orderValue)) == SortKey(sem, orderBy, row) && after.stream == row.stream
  }

  /** The cursor predicate is true of exactly the rows past the cursor, and never unknown. */
  lemma CursorSelects(sem: Sem, orderBy: Option<(string, Order)>, after: After, at: Row, row: Row)
    requires OrderLaws(sem) && IsCursor(sem, orderBy, after, at)
    requires !SortKey(sem, orderBy, at).SqlNull? && !SortKey(sem, orderBy, row).SqlNull?
    ensures KeyMeaning(sem, row, after, orderBy) == if RowBefore(sem, orderBy, at, row) then True else False
  {
    var x, y := SortKey(sem, orderBy, at), SortKey(sem, orderBy, row);
    var a, b := SqlText(at.stream), SqlText(row.stream);
    CompareKnown(sem, RelOp.Lt, x, y);
    CompareKnown(sem, RelOp.Lt, y, x);
    CompareKnown(sem, RelOp.Lt, a, b);
    CompareKnown(sem, RelOp.Lt, b, a);
    CompareKnown(sem, RelOp.Eq, y, x);
  }

  /** The row's key and the cursor's are both there, and the row lies past the cursor. */
  ghost predicate Past(sem: Sem, orderBy: Option<(string, Order)>, at: Row, row: Row) {
    !SortKey(sem, orderBy, at).SqlNull? && !SortKey(sem, orderBy, row).SqlNull? && RowBefore(sem, orderBy, at, row)
  }

  /** With null keys too: the cursor selects a row if and only if neither key is null and the row lies past it. */
  lemma CursorSelectsPast(sem: Sem, orderBy: Option<(string, Order)>, after: After, at: Row, row: Row)
    requires OrderLaws(sem) && IsCursor(sem, orderBy, after, at)
    ensures KeyMeaning(sem, row, after, orderBy) == True <==> Past(sem, orderBy, at, row)
  {
    if !SortKey(sem, orderBy, at).SqlNull? && !SortKey(sem, orderBy, row).SqlNull? {
      CursorSelects(sem, orderBy, after, at, row);
    }
  }

  lemma CompareKnown(sem: Sem, op: RelOp, x: SqlVal, y: SqlVal)
    requires OrderLaws(sem) && !x.SqlNull? && !y.SqlNull? && (op.Eq? || op.Lt? || op.Gt?)
    ensures sem.compare(op, x, y) != Unknown
    ensures op.Eq? ==> (sem.compare(op, x, y) == True <==> x == y)
  {
  }

  lemma KeyOrder(sem: Sem, orderBy: Option<(string, Order)>, x: SqlVal, y: SqlVal)
    requires OrderLaws(sem) && !x.SqlNull? && !y.SqlNull? && KeyBefore(sem, orderBy, x, y)
    ensures x != y && !KeyBefore(sem, orderBy, y, x)
  {
  }

  // ---- pages ---------------------------------------------------------------------------

  /** What `ORDER BY <key> LIMIT <limit>` may answer on `chosen`: nothing is said of rows with equal keys. */
  ghost predicate IsPage(sem: Sem, orderBy: Option<(string, Order)>, chosen: set<Row>, limit: nat, page: seq<Row>) {
    && |page| == (if |chosen| <= limit then |chosen| else limit)
    && (forall i :: 0 <= i < |page| ==> page[i] in chosen)
    && (forall i, j :: 0 <= i < j < |page| ==>
          page[i] != page[j] && !KeyBefore(sem, orderBy, SortKey(sem, orderBy, page[j]), SortKey(sem, orderBy, page[i])))
    && (forall r, i :: r in chosen && r !in page && 0 <= i < |page| ==>
          !KeyBefore(sem, orderBy, SortKey(sem, orderBy, r), SortKey(sem, orderBy, page[i])))
  }

  /** The rows of the table the compiled text keeps. */
  ghost function Chosen(sem: Sem, table: set<Row>, q: Query): set<Row> {
    var p := Paged(sem.encode, q);
    set r | r in table && Selected(sem, r, p.toks, p.params + [SqlInt(q.limit), SqlInt(q.offset)]) == True
  }

  /** The matching rows, each once, strictly in key order. */
  ghost predicate Listing(sem: Sem, table: set<Row>, q: Query, rows: seq<Row>) {
    && (forall r :: r in rows <==> r in table && WhereMeaning(sem, r, q.filter, q.raw, q.includeDead) == True)
    && (forall i :: 0 <= i < |rows| ==> !SortKey(sem, q.orderBy, rows[i]).SqlNull?)
    && (forall i, j :: 0 <= i < j < |rows| ==>
          KeyBefore(sem, q.orderBy, SortKey(sem, q.orderBy, rows[i]), SortKey(sem, q.orderBy, rows[j])))
  }

  predicate Pageable(q: Query) {
    (q.raw.Some? ==> RawOk(q.raw.value)) && !BareOr(q.filter, q.raw, q.includeDead) && q.limit >= 1 && q.offset == 0
  }

  /** The query that asks for the page after the first `i` rows of the listing. */
  ghost predicate AsksAfter(sem: Sem, q: Query, rows: seq<Row>, i: nat)
    requires i <= |rows|
  {
    if i == 0 then q.after.None? else q.after.Some? && IsCursor(sem, q.orderBy, q.after.value, rows[i - 1])
  }

  /** What the compiled text keeps, row by row. */
  lemma ChosenRow(sem: Sem, table: set<Row>, q: Query, r: Row)
    requires Pageable(q)
    ensures r in Chosen(sem, table, q) <==> r in table && PagedMeaning(sem, r, q) == True
  {
    hide PagedMeaning, Paged, Selected;
    if r in table { CompiledQueryMeans(sem, r, q, [SqlInt(q.limit), SqlInt(q.offset)]); }
  }

  lemma ChosenIsRest(sem: Sem, table: set<Row>, q: Query, rows: seq<Row>, i: nat)
    requires OrderLaws(sem) && Pageable(q) && Listing(sem, table, q, rows) && i <= |rows| && AsksAfter(sem, q, rows, i)
    ensures Chosen(sem, table, q) == set r | r in rows[i..]
  {
    hide OrderLaws, Pageable, AsksAfter, Chosen, SortKey, KeyBefore, WhereMeaning, PagedMeaning;
    forall r ensures r in Chosen(sem, table, q) <==> r in rows[i..] {
      ChosenRow(sem, table, q, r);
      if r in rows {
        RestOf(sem, q, rows, i, r);
      } else {
        MustMatch(sem, q, r);
        assert r !in rows[i..];
      }
    }
  }

  lemma MustMatch(sem: Sem, q: Query, r: Row)
    ensures PagedMeaning(sem, r, q) == True ==> WhereMeaning(sem, r, q.filter, q.raw, q.includeDead) == True
  {
    hide WhereMeaning, KeyMeaning;
  }

  lemma RestOf(sem: Sem, q: Query, rows: seq<Row>, i: nat, r: Row)
    requires OrderLaws(sem) && i <= |rows| && AsksAfter(sem, q, rows, i) && r in rows
    requires forall k :: 0 <= k < |rows| ==> !SortKey(sem, q.orderBy, rows[k]).SqlNull?
    requires forall k, l :: 0 <= k < l < |rows| ==>
               KeyBefore(sem, q.orderBy, SortKey(sem, q.orderBy, rows[k]), SortKey(sem, q.orderBy, rows[l]))
    requires WhereMeaning(sem, r, q.filter, q.raw, q.includeDead) == True
    ensures PagedMeaning(sem, r, q) == True <==> r in rows[i..]
  {
    var k :| 0 <= k < |rows| && rows[k] == r;
    if i == 0 {
      assert rows[0..] == rows;
    } else {
      CursorSelects(sem, q.orderBy, q.after.value, rows[i - 1], r);
      if k < i {
        PastNot(sem, q.orderBy, rows, k, i);
      } else {
        assert rows[i..][k - i] == r;
      }
    }
  }

  lemma PastNot(sem: Sem, orderBy: Option<(string, Order)>, rows: seq<Row>, k: nat, i: nat)
    requires OrderLaws(sem) && k < i <= |rows|
    requires forall k :: 0 <= k < |rows| ==> !SortKey(sem, orderBy, rows[k]).SqlNull?
    requires forall k, l :: 0 <= k < l < |rows| ==>
               KeyBefore(sem, orderBy, SortKey(sem, orderBy, rows[k]), SortKey(sem, orderBy, rows[l]))
    ensures rows[k] !in rows[i..] && !RowBefore(sem, orderBy, rows[i - 1], rows[k])
  {
    var x, y := SortKey(sem, orderBy, rows[i - 1]), SortKey(sem, orderBy, rows[k]);
    if k < i - 1 {
      KeyOrder(sem, orderBy, y, x);
    } else {
      var a := SqlText(rows[k].stream);
      assert sem.compare(RelOp.Lt, a, a) == True ==> a != a;
      assert sem.compare(RelOp.Lt, x, x) == True ==> x != x;
    }
    forall j | i <= j < |rows| ensures rows[j] != rows[k] {
      KeyOrder(sem, orderBy, y, SortKey(sem, orderBy, rows[j]));
    }
  }

  /** A page of distinct keys is the next slice of the listing, whatever SQLite does with ties. */
  lemma PageIsSlice(sem: Sem, table: set<Row>, q: Query, rows: seq<Row>, i: nat, page: seq<Row>)
    requires OrderLaws(sem) && Pageable(q) && Listing(sem, table, q, rows) && i <= |rows| && AsksAfter(sem, q, rows, i)
    requires IsPage(sem, q.orderBy, Chosen(sem, table, q), q.limit, page)
    ensures page == rows[i..if |rows| - i <= q.limit then |rows| else i + q.limit]
  {
    hide Chosen, Pageable, WhereMeaning, AsksAfter, SortKey, KeyBefore;
    ChosenIsRest(sem, table, q, rows, i);
    var rest := rows[i..];
    RestSorted(sem, table, q, rows, i);
    DistinctCount(rest);
    SlicePrefix(sem, q.orderBy, rest, page, |page|);
    assert page == page[..|page|];
  }

  lemma RestSorted(sem: Sem, table: set<Row>, q: Query, rows: seq<Row>, i: nat)
    requires OrderLaws(sem) && Listing(sem, table, q, rows) && i <= |rows|
    ensures forall k, l :: 0 <= k < l < |rows[i..]| ==>
              KeyBefore(sem, q.orderBy, SortKey(sem, q.orderBy, rows[i..][k]), SortKey(sem, q.orderBy, rows[i..][l]))
              && rows[i..][k] != rows[i..][l]
  {
    hide SortKey, WhereMeaning;
    forall k, l | 0 <= k < l < |rows[i..]|
      ensures KeyBefore(sem, q.orderBy, SortKey(sem, q.orderBy, rows[i..][k]), SortKey(sem, q.orderBy, rows[i..][l]))
              && rows[i..][k] != rows[i..][l] {
      KeyOrder(sem, q.orderBy, SortKey(sem, q.orderBy, rows[i + k]), SortKey(sem, q.orderBy, rows[i + l]));
    }
  }

  lemma {:induction false} DistinctCount(rows: seq<Row>)
    requires forall k, l :: 0 <= k < l < |rows| ==> rows[k] != rows[l]
    ensures |set r | r in rows| == |rows|
    decreases |rows|
  {
    if rows == [] {
      assert (set r | r in rows) == {};
    } else {
      var last := |rows| - 1;
      DistinctCount(rows[..last]);
      assert (set r | r in rows) == (set r | r in rows[..last]) + {rows[last]};
    }
  }

  lemma {:induction false} SlicePrefix(sem: Sem, orderBy: Option<(string, Order)>, rest: seq<Row>, page: seq<Row>, n: nat)
    requires n <= |page| <= |rest|
    requires forall k, l :: 0 <= k < l < |rest| ==>
               KeyBefore(sem, orderBy, SortKey(sem, orderBy, rest[k]), SortKey(sem, orderBy, rest[l])) && rest[k] != rest[l]
    requires forall i :: 0 <= i < |page| ==> page[i] in rest
    requires forall i, j :: 0 <= i < j < |page| ==>
               page[i] != page[j] && !KeyBefore(sem, orderBy, SortKey(sem, orderBy, page[j]), SortKey(sem, orderBy, page[i]))
    requires forall r, i :: r in rest && r !in page && 0 <= i < |page| ==>
               !KeyBefore(sem, orderBy, SortKey(sem, orderBy, r), SortKey(sem, orderBy, page[i]))
    ensures page[..n] == rest[..n]
    decreases n
  {
    hide KeyBefore, SortKey;
    if n > 0 {
      var m := n - 1;
      SlicePrefix(sem, orderBy, rest, page, m);
      var t :| 0 <= t < |rest| && rest[t] == page[m];
      SliceNext(sem, orderBy, rest, page, m, t);
      assert page[..n] == page[..m] + [page[m]] && rest[..n] == rest[..m] + [rest[m]];
    }
  }

  lemma SliceNext(sem: Sem, orderBy: Option<(string, Order)>, rest: seq<Row>, page: seq<Row>, m: nat, t: nat)
    requires m < |page| <= |rest| && t < |rest| && rest[t] == page[m] && page[..m] == rest[..m]
    requires forall k, l :: 0 <= k < l < |rest| ==>
               KeyBefore(sem, orderBy, SortKey(sem, orderBy, rest[k]), SortKey(sem, orderBy, rest[l])) && rest[k] != rest[l]
    requires forall i, j :: 0 <= i < j < |page| ==>
               page[i] != page[j] && !KeyBefore(sem, orderBy, SortKey(sem, orderBy, page[j]), SortKey(sem, orderBy, page[i]))
    requires forall r, i :: r in rest && r !in page && 0 <= i < |page| ==>
               !KeyBefore(sem, orderBy, SortKey(sem, orderBy, r), SortKey(sem, orderBy, page[i]))
    ensures t == m
  {
    hide KeyBefore, SortKey;
    assert forall j :: 0 <= j < m ==> page[..m][j] == page[j] && rest[..m][j] == rest[j];
    assert forall j :: 0 <= j < |page| && page[j] == rest[m] ==> m <= j;
  }

  // ---- walking the pages -----------------------------------------------------------------

  /** How many rows of the listing the first `n` pages hold. */
  function Reached(total: nat, limit: nat, n: nat): (r: nat)
    ensures r <= total
    ensures limit >= 1 && n >= total ==> r == total
    ensures limit >= 1 && r < total ==> r >= n
  {
    if n == 0 then 0
    else
      var before := Reached(total, limit, n - 1);
      if total - before <= limit then total else before + limit
  }

  function Flatten(pages: seq<seq<Row>>): seq<Row> {
    if pages == [] then [] else Flatten(pages[..|pages| - 1]) + pages[|pages| - 1]
  }

  /** Same query, page after page; each cursor is made from the last row seen so far. */
  ghost predicate Walk(sem: Sem, table: set<Row>, q: Query, cursors: seq<Option<After>>, pages: seq<seq<Row>>) {
    && |cursors| == |pages|
    && forall n :: 0 <= n < |pages| ==>
         && IsPage(sem, q.orderBy, Chosen(sem, table, q.(after := cursors[n])), q.limit, pages[n])
         && var seen := Flatten(pages[..n]);
            if seen == [] then cursors[n].None?
            else cursors[n].Some? && IsCursor(sem, q.orderBy, cursors[n].value, seen[|seen| - 1])
  }

  /**
   * The pages of a walk, put together, are a prefix of the listing; after as
   * many pages as there are rows they are the whole listing, so the walk ends
   * and every matching row was visited exactly once, in order.
   */
  lemma {:induction false} WalkVisitsAll(sem: Sem, table: set<Row>, q: Query, rows: seq<Row>, cursors: seq<Option<After>>,
        pages: seq<seq<Row>>)
    requires OrderLaws(sem) && Pageable(q) && Listing(sem, table, q, rows) && Walk(sem, table, q, cursors, pages)
    ensures Flatten(pages) == rows[..Reached(|rows|, q.limit, |pages|)]
    ensures |pages| >= |rows| ==> Flatten(pages) == rows
    decreases |pages|
  {
    hide Chosen, IsPage, WhereMeaning, SortKey, KeyBefore, OrderLaws, IsCursor, Listing, Walk;
    if pages != [] {
      var n := |pages| - 1;
      WalkPrefix(sem, table, q, cursors, pages);
      WalkVisitsAll(sem, table, q, rows, cursors[..n], pages[..n]);
      WalkStep(sem, table, q, rows, cursors, pages);
    }
  }

  lemma WalkPrefix(sem: Sem, table: set<Row>, q: Query, cursors: seq<Option<After>>, pages: seq<seq<Row>>)
    requires Walk(sem, table, q, cursors, pages) && pages != []
    ensures |cursors| == |pages| && Walk(sem, table, q, cursors[..|pages| - 1], pages[..|pages| - 1])
  {
    hide Chosen, IsPage, IsCursor, Flatten;
    var n := |pages| - 1;
    assert forall m :: 0 <= m < n ==>
              pages[..n][..m] == pages[..m] && pages[..n][m] == pages[m] && cursors[..n][m] == cursors[m];
  }

  lemma WalkStep(sem: Sem, table: set<Row>, q: Query, rows: seq<Row>, cursors: seq<Option<After>>, pages: seq<seq<Row>>)
    requires OrderLaws(sem) && Pageable(q) && Listing(sem, table, q, rows) && Walk(sem, table, q, cursors, pages) && pages != []
    requires Flatten(pages[..|pages| - 1]) == rows[..Reached(|rows|, q.limit, |pages| - 1)]
    ensures Flatten(pages) == rows[..Reached(|rows|, q.limit, |pages|)]
  {
    hide Chosen, IsPage, WhereMeaning, SortKey, KeyBefore, OrderLaws, Listing, Pageable, AsksAfter;
    var n := |pages| - 1;
    var i := Reached(|rows|, q.limit, n);
    var asked := q.(after := cursors[n]);
    WalkAsks(sem, table, q, rows, cursors, pages);
    SameListing(sem, table, q, rows, cursors[n]);
    PageIsSlice(sem, table, asked, rows, i, pages[n]);
    SliceJoin(rows, i, Reached(|rows|, q.limit, n + 1));
  }

  lemma SliceJoin(rows: seq<Row>, i: nat, j: nat)
    requires i <= j <= |rows|
    ensures rows[..i] + rows[i..j] == rows[..j]
  {
  }

  lemma WalkAsks(sem: Sem, table: set<Row>, q: Query, rows: seq<Row>, cursors: seq<Option<After>>, pages: seq<seq<Row>>)
    requires Walk(sem, table, q, cursors, pages) && pages != []
    requires Flatten(pages[..|pages| - 1]) == rows[..Reached(|rows|, q.limit, |pages| - 1)]
    ensures var n := |pages| - 1;
            && AsksAfter(sem, q.(after := cursors[n]), rows, Reached(|rows|, q.limit, n))
            && IsPage(sem, q.orderBy, Chosen(sem, table, q.(after := cursors[n])), q.limit, pages[n])
  {
    hide Chosen, IsPage, IsCursor, Reached, Flatten;
  }

  lemma SameListing(sem: Sem, table: set<Row>, q: Query, rows: seq<Row>, after: Option<After>)
    requires Listing(sem, table, q, rows) && Pageable(q)
    ensures Listing(sem, table, q.(after := after), rows) && Pageable(q.(after := after))
  {
    hide WhereMeaning, SortKey, KeyBefore;
  }

  // ---- ties ------------------------------------------------------------------------------

  /** The row has the last row's key. */
  ghost predicate Tied(sem: Sem, orderBy: Option<(string, Order)>, last: Row, r: Row) {
    SortKey(sem, orderBy, r) == SortKey(sem, orderBy, last)
  }

  ghost predicate StreamAfter(sem: Sem, orderBy: Option<(string, Order)>, last: Row, r: Row) {
    KeyBefore(sem, orderBy, SqlText(last.stream), SqlText(r.stream))
  }

  lemma PastLeft(sem: Sem, orderBy: Option<(string, Order)>, chosen: set<Row>, limit: nat, page: seq<Row>, r: Row)
    requires OrderLaws(sem) && IsPage(sem, orderBy, chosen, limit, page) && page != [] && r in chosen && r !in page
    ensures var last := page[|page| - 1];
            !Past(sem, orderBy, last, r) <==>
              || SortKey(sem, orderBy, r).SqlNull? || SortKey(sem, orderBy, last).SqlNull?
              || (Tied(sem, orderBy, last, r) && !StreamAfter(sem, orderBy, last, r))
  {
    hide SortKey;
    var last := page[|page| - 1];
    var x, y := SortKey(sem, orderBy, last), SortKey(sem, orderBy, r);
    if !x.SqlNull? && !y.SqlNull? {
      assert !KeyBefore(sem, orderBy, y, x);
      if x == y { NotItself(sem, orderBy, x); }
    }
  }

  lemma PastTaken(sem: Sem, orderBy: Option<(string, Order)>, chosen: set<Row>, limit: nat, page: seq<Row>, r: Row)
    requires OrderLaws(sem) && IsPage(sem, orderBy, chosen, limit, page) && r in page
    ensures var last := page[|page| - 1];
            Past(sem, orderBy, last, r) <==>
              !SortKey(sem, orderBy, r).SqlNull? && Tied(sem, orderBy, last, r) && StreamAfter(sem, orderBy, last, r)
  {
    hide SortKey;
    var last := page[|page| - 1];
    var i :| 0 <= i < |page| && page[i] == r;
    var x, y := SortKey(sem, orderBy, last), SortKey(sem, orderBy, r);
    if !x.SqlNull? && !y.SqlNull? {
      if x == y {
        NotItself(sem, orderBy, x);
      } else {
        assert !KeyBefore(sem, orderBy, x, y);
      }
    }
  }

  /**
   * What the next page loses, for any page SQLite may answer and the cursor of
   * its last row: a row left for later is not selected afterwards if and only
   * if a key is null, or its key is the last row's and its stream does not sort
   * after the last row's.
   */
  lemma LostAfterPage(sem: Sem, orderBy: Option<(string, Order)>, chosen: set<Row>, limit: nat, page: seq<Row>, after: After,
        r: Row)
    requires OrderLaws(sem) && IsPage(sem, orderBy, chosen, limit, page) && page != [] && r in chosen && r !in page
    requires IsCursor(sem, orderBy, after, page[|page| - 1])
    ensures var last := page[|page| - 1];
            KeyMeaning(sem, r, after, orderBy) != True <==>
              || SortKey(sem, orderBy, r).SqlNull? || SortKey(sem, orderBy, last).SqlNull?
              || (Tied(sem, orderBy, last, r) && !StreamAfter(sem, orderBy, last, r))
  {
    hide OrderLaws, IsPage, KeyMeaning, Past;
    PastLeft(sem, orderBy, chosen, limit, page, r);
    CursorSelectsPast(sem, orderBy, after, page[|page| - 1], r);
  }

  /**
   * And what it repeats: a row of the page is selected again if and only if it ties
   * with the last row and its stream sorts after.
   */
  lemma RepeatedAfterPage(sem: Sem, orderBy: Option<(string, Order)>, chosen: set<Row>, limit: nat, page: seq<Row>,
        after: After, r: Row)
    requires OrderLaws(sem) && IsPage(sem, orderBy, chosen, limit, page) && r in page
    requires IsCursor(sem, orderBy, after, page[|page| - 1])
    ensures var last := page[|page| - 1];
            KeyMeaning(sem, r, after, orderBy) == True <==>
              !SortKey(sem, orderBy, r).SqlNull? && Tied(sem, orderBy, last, r) && StreamAfter(sem, orderBy, last, r)
  {
    hide OrderLaws, IsPage, KeyMeaning, Past;
    PastTaken(sem, orderBy, chosen, limit, page, r);
    CursorSelectsPast(sem, orderBy, after, page[|page| - 1], r);
  }

  lemma NotItself(sem: Sem, orderBy: Option<(string, Order)>, x: SqlVal)
    requires OrderLaws(sem) && !x.SqlNull?
    ensures !KeyBefore(sem, orderBy, x, x)
  {
    assert sem.compare(RelOp.Lt, x, x) == True ==> x != x;
  }

  /** The page splits the rows tied with its last one by stream: those up to it are on the page, those after it are not. */
  ghost predicate CleanBreak(sem: Sem, orderBy: Option<(string, Order)>, chosen: set<Row>, page: seq<Row>)
    requires page != []
  {
    var last := page[|page| - 1];
    forall r :: r in chosen && Tied(sem, orderBy, last, r) ==> (r in page <==> !StreamAfter(sem, orderBy, last, r))
  }

  lemma CleanBreakRow(sem: Sem, orderBy: Option<(string, Order)>, chosen: set<Row>, limit: nat, page: seq<Row>, r: Row)
    requires OrderLaws(sem) && IsPage(sem, orderBy, chosen, limit, page) && page != [] && r in chosen
    requires forall o :: o in chosen ==> !SortKey(sem, orderBy, o).SqlNull?
    ensures var last := page[|page| - 1];
            (Past(sem, orderBy, last, r) <==> r !in page)
            <==> (Tied(sem, orderBy, last, r) ==> (r in page <==> !StreamAfter(sem, orderBy, last, r)))
  {
    hide SortKey, OrderLaws, Past, Tied, StreamAfter;
    assert page[|page| - 1] in chosen;
    if r in page {
      PastTaken(sem, orderBy, chosen, limit, page, r);
    } else {
      PastLeft(sem, orderBy, chosen, limit, page, r);
    }
  }

  /** On keys that are not null, the next page is asked for exactly the rows left, if and only if the break is clean. */
  lemma NextIsRest(sem: Sem, orderBy: Option<(string, Order)>, chosen: set<Row>, limit: nat, page: seq<Row>, after: After)
    requires OrderLaws(sem) && IsPage(sem, orderBy, chosen, limit, page) && page != []
    requires forall r :: r in chosen ==> !SortKey(sem, orderBy, r).SqlNull?
    requires IsCursor(sem, orderBy, after, page[|page| - 1])
    ensures (forall r :: r in chosen ==> (KeyMeaning(sem, r, after, orderBy) == True <==> r !in page))
            <==> CleanBreak(sem, orderBy, chosen, page)
  {
    hide SortKey, KeyMeaning, OrderLaws, KeyBefore, Tied, StreamAfter, IsCursor, IsPage, Past;
    var last := page[|page| - 1];
    forall r | r in chosen
      ensures (KeyMeaning(sem, r, after, orderBy) == True <==> r !in page)
              <==> (Tied(sem, orderBy, last, r) ==> (r in page <==> !StreamAfter(sem, orderBy, last, r)))
    {
      CleanBreakRow(sem, orderBy, chosen, limit, page, r);
      CursorSelectsPast(sem, orderBy, after, last, r);
    }
  }

  // ---- walking over ties -----------------------------------------------------------------

  ghost predicate Matches(sem: Sem, table: set<Row>, q: Query, r: Row) {
    r in table && WhereMeaning(sem, r, q.filter, q.raw, q.includeDead) == True
  }

  /** What the compiled text keeps is what matches and, under a cursor, what lies past it. */
  lemma ChosenIs(sem: Sem, table: set<Row>, q: Query, at: Row, r: Row)
    requires OrderLaws(sem) && Pageable(q) && (q.after.Some? ==> IsCursor(sem, q.orderBy, q.after.value, at))
    ensures r in Chosen(sem, table, q) <==> Matches(sem, table, q, r) && (q.after.None? || Past(sem, q.orderBy, at, r))
  {
    hide OrderLaws, IsCursor, WhereMeaning, KeyMeaning, Past, Chosen, Pageable;
    ChosenRow(sem, table, q, r);
    if q.after.Some? { CursorSelectsPast(sem, q.orderBy, q.after.value, at, r); }
  }

  lemma PastTwice(sem: Sem, orderBy: Option<(string, Order)>, a: Row, b: Row, c: Row)
    requires OrderLaws(sem) && Past(sem, orderBy, a, b) && Past(sem, orderBy, b, c)
    ensures Past(sem, orderBy, a, c)
  {
    hide SortKey;
  }

  /** The matching rows not seen yet are exactly those past the last one seen. */
  ghost predicate Split(sem: Sem, table: set<Row>, q: Query, seen: seq<Row>) {
    && (forall i :: 0 <= i < |seen| ==> Matches(sem, table, q, seen[i]))
    && (forall i, j :: 0 <= i < j < |seen| ==> seen[i] != seen[j])
    && forall r :: Matches(sem, table, q, r) ==> (r !in seen <==> seen == [] || Past(sem, q.orderBy, seen[|seen| - 1], r))
  }

  /** Every page of the walk breaks its ties cleanly. */
  ghost predicate CleanWalk(sem: Sem, table: set<Row>, q: Query, cursors: seq<Option<After>>, pages: seq<seq<Row>>)
    requires |cursors| == |pages|
  {
    forall n :: 0 <= n < |pages| && pages[n] != [] ==>
        CleanBreak(sem, q.orderBy, Chosen(sem, table, q.(after := cursors[n])), pages[n])
  }

  lemma SplitNext(sem: Sem, table: set<Row>, q: Query, seen: seq<Row>, cursor: Option<After>, page: seq<Row>)
    requires OrderLaws(sem) && Pageable(q) && Split(sem, table, q, seen)
    requires forall r :: Matches(sem, table, q, r) ==> !SortKey(sem, q.orderBy, r).SqlNull?
    requires if seen == [] then cursor.None? else cursor.Some? && IsCursor(sem, q.orderBy, cursor.value, seen[|seen| - 1])
    requires IsPage(sem, q.orderBy, Chosen(sem, table, q.(after := cursor)), q.limit, page)
    requires page != [] ==> CleanBreak(sem, q.orderBy, Chosen(sem, table, q.(after := cursor)), page)
    ensures Split(sem, table, q, seen + page)
    ensures page == [] ==> forall r :: Matches(sem, table, q, r) ==> r in seen
  {
    hide OrderLaws, IsCursor, SortKey, KeyBefore, Chosen, Past, Matches, Tied, StreamAfter;
    var asked := q.(after := cursor);
    var chosen := Chosen(sem, table, asked);
    forall r ensures r in chosen <==> Matches(sem, table, q, r) && r !in seen {
      if seen == [] {
        if r in table { ChosenIs(sem, table, asked, r, r); } else { NotInTable(sem, table, asked, r); }
      } else {
        ChosenIs(sem, table, asked, seen[|seen| - 1], r);
      }
      SameMatches(sem, table, q, cursor, r);
    }
    if page == [] {
      assert seen + page == seen;
      NoneLeft(chosen, q.limit);
    } else {
      SplitByPage(sem, table, q, seen, chosen, page);
    }
  }

  lemma NotInTable(sem: Sem, table: set<Row>, q: Query, r: Row)
    requires r !in table
    ensures r !in Chosen(sem, table, q) && !Matches(sem, table, q, r)
  {
    hide Selected, Paged;
  }

  lemma SameMatches(sem: Sem, table: set<Row>, q: Query, cursor: Option<After>, r: Row)
    ensures Matches(sem, table, q.(after := cursor), r) == Matches(sem, table, q, r)
  {
  }

  lemma NoneLeft(chosen: set<Row>, limit: nat)
    requires limit >= 1 && (if |chosen| <= limit then |chosen| else limit) == 0
    ensures chosen == {}
  {
  }

  lemma SplitByPage(sem: Sem, table: set<Row>, q: Query, seen: seq<Row>, chosen: set<Row>, page: seq<Row>)
    requires OrderLaws(sem) && Split(sem, table, q, seen) && page != [] && IsPage(sem, q.orderBy, chosen, q.limit, page)
    requires forall r :: r in chosen <==> Matches(sem, table, q, r) && r !in seen
    requires forall r :: Matches(sem, table, q, r) ==> !SortKey(sem, q.orderBy, r).SqlNull?
    requires CleanBreak(sem, q.orderBy, chosen, page)
    ensures Split(sem, table, q, seen + page)
  {
    hide OrderLaws, SortKey, KeyBefore, Past, Matches, Tied, StreamAfter;
    var all, last := seen + page, page[|page| - 1];
    assert last in chosen && all[|all| - 1] == last;
    forall r | Matches(sem, table, q, r) ensures r !in all <==> Past(sem, q.orderBy, last, r) {
      if r in seen {
        if Past(sem, q.orderBy, last, r) { PastTwice(sem, q.orderBy, seen[|seen| - 1], last, r); }
      } else {
        CleanBreakRow(sem, q.orderBy, chosen, q.limit, page, r);
      }
    }
    forall i, j | 0 <= i < j < |all| ensures all[i] != all[j] {
      if i < |seen| <= j { assert all[i] in seen && page[j - |seen|] in chosen; }
    }
    forall i | 0 <= i < |all| ensures Matches(sem, table, q, all[i]) {
      if i >= |seen| { assert page[i - |seen|] in chosen; }
    }
  }

  /**
   * Ties allowed: if every page breaks its ties cleanly, the walk visits no row
   * twice and, within as many pages as there are matching rows, every one.
   */
  lemma {:induction false} CleanWalkVisitsOnce(sem: Sem, table: set<Row>, q: Query, cursors: seq<Option<After>>,
        pages: seq<seq<Row>>)
    requires OrderLaws(sem) && Pageable(q) && Walk(sem, table, q, cursors, pages) && CleanWalk(sem, table, q, cursors, pages)
    requires forall r :: Matches(sem, table, q, r) ==> !SortKey(sem, q.orderBy, r).SqlNull?
    ensures Split(sem, table, q, Flatten(pages))
    ensures (forall r :: Matches(sem, table, q, r) ==> r in Flatten(pages)) || |Flatten(pages)| >= |pages|
    decreases |pages|
  {
    hide OrderLaws, Chosen, IsPage, IsCursor, SortKey, KeyBefore, Matches, Split, CleanBreak, Pageable;
    if pages == [] {
      NothingSeen(sem, table, q);
    } else {
      var n := |pages| - 1;
      WalkPrefix(sem, table, q, cursors, pages);
      CleanWalkVisitsOnce(sem, table, q, cursors[..n], pages[..n]);
      SplitNext(sem, table, q, Flatten(pages[..n]), cursors[n], pages[n]);
    }
  }

  lemma NothingSeen(sem: Sem, table: set<Row>, q: Query)
    ensures Split(sem, table, q, [])
  {
  }

  /** So a clean walk of as many pages as the table has rows has visited every matching row, each once. */
  lemma CleanWalkIsWhole(sem: Sem, table: set<Row>, q: Query, cursors: seq<Option<After>>, pages: seq<seq<Row>>)
    requires OrderLaws(sem) && Pageable(q) && Walk(sem, table, q, cursors, pages) && CleanWalk(sem, table, q, cursors, pages)
    requires forall r :: Matches(sem, table, q, r) ==> !SortKey(sem, q.orderBy, r).SqlNull?
    requires |pages| >= |table|
    ensures forall r :: r in Flatten(pages) <==> Matches(sem, table, q, r)
    ensures forall i, j :: 0 <= i < j < |Flatten(pages)| ==> Flatten(pages)[i] != Flatten(pages)[j]
  {
    hide OrderLaws, Walk, CleanWalk, SortKey, WhereMeaning, Pageable, Past;
    CleanWalkVisitsOnce(sem, table, q, cursors, pages);
    var all := Flatten(pages);
    if |all| >= |table| {
      DistinctCount(all);
      FillsUp((set r | r in all), table);
    }
  }

  lemma {:induction false} FillsUp(part: set<Row>, whole: set<Row>)
    requires part <= whole && |part| >= |whole|
    ensures part == whole
  {
    if r :| r in whole && r !in part {
      assert part <= whole - {r};
      SubsetCount(part, whole - {r});
      assert false;
    }
  }

  lemma {:induction false} SubsetCount(part: set<Row>, whole: set<Row>)
    requires part <= whole
    ensures |part| <= |whole|
    decreases whole
  {
    if r :| r in whole {
      SubsetCount(part - {r}, whole - {r});
    }
  }

  /**
   * Without a tie-breaker in ORDER BY, distinct keys are needed: with two
   * matching rows of equal key, page size one, SQLite may answer the row whose
   * stream is the greater one first, and the other is then never selected.
   */
  lemma TieMayLoseARow(sem: Sem, orderBy: Option<(string, Order)>, a: Row, b: Row, after: After)
    requires OrderLaws(sem) && a != b && SortKey(sem, orderBy, a) == SortKey(sem, orderBy, b)
    requires !SortKey(sem, orderBy, a).SqlNull? && KeyBefore(sem, orderBy, SqlText(a.stream), SqlText(b.stream))
    requires IsCursor(sem, orderBy, after, b)
    ensures IsPage(sem, orderBy, {a, b}, 1, [b])
    ensures KeyMeaning(sem, a, after, orderBy) == False && KeyMeaning(sem, b, after, orderBy) == False
  {
    var x := SortKey(sem, orderBy, a);
    assert sem.compare(RelOp.Lt, x, x) != True;
    KeyOrder(sem, orderBy, SqlText(a.stream), SqlText(b.stream));
    assert sem.compare(RelOp.Lt, SqlText(b.stream), SqlText(b.stream)) != True;
    CursorSelects(sem, orderBy, after, b, a);
    CursorSelects(sem, orderBy, after, b, b);
  }
}
