/** The price table the pipeline works on, its emptiness test (app.py,
    line 128) and the sort by date (app.py, lines 131 and 178). Dates are
    ordered integer keys; cell values are reals. */
module Series {

  /** One bar: its date (the table's index) and one value per column. */
  datatype Row = Row(date: int, cells: seq<real>)

  /** A table with named columns, as it stands after the column names are normalised. */
  datatype Frame = Frame(columns: seq<string>, rows: seq<Row>)

  /** Every row has exactly one cell per column. */
  predicate Rectangular(width: nat, rows: seq<Row>)
  {
    forall i :: 0 <= i < |rows| ==> |rows[i].cells| == width
  }

  /** `DataFrame.empty`: true when either axis has length zero, so a table
      with rows but no columns is empty too. */
  predicate IsEmpty(f: Frame)
    ensures IsEmpty(f) <==> |f.rows| * |f.columns| == 0
  {
    |f.rows| == 0 || |f.columns| == 0
  }

  /** The values of column `j`, top to bottom. */
  function Column(rows: seq<Row>, j: nat): (col: seq<real>)
    requires forall i :: 0 <= i < |rows| ==> j < |rows[i].cells|
    ensures |col| == |rows|
    ensures forall i :: 0 <= i < |rows| ==> col[i] == rows[i].cells[j]
  {
    seq(|rows|, i requires 0 <= i < |rows| => rows[i].cells[j])
  }

  /** The dates of the rows, top to bottom. */
  function Dates(rows: seq<Row>): (ds: seq<int>)
    ensures |ds| == |rows|
    ensures forall i :: 0 <= i < |rows| ==> ds[i] == rows[i].date
  {
    seq(|rows|, i requires 0 <= i < |rows| => rows[i].date)
  }

  /** Date order in the requested direction (`ascending=True` or `ascending=False`). */
  predicate InOrder(a: int, b: int, ascending: bool)
  {
    if ascending then a <= b else a >= b
  }

  predicate SortedBy(rows: seq<Row>, ascending: bool)
  {
    forall i, j :: 0 <= i < j < |rows| ==> InOrder(rows[i].date, rows[j].date, ascending)
  }

  /** No date occurs twice. */
  predicate DistinctDates(rows: seq<Row>)
  {
    forall i, j :: 0 <= i < j < |rows| ==> rows[i].date != rows[j].date
  }

  /** Puts `r` in front of the first row that does not come strictly before it. */
  function Insert(r: Row, rows: seq<Row>, ascending: bool): (out: seq<Row>)
    ensures multiset(out) == multiset(rows) + multiset{r}
    ensures |out| == |rows| + 1
  {
    if rows == [] || InOrder(r.date, rows[0].date, ascending) then
      [r] + rows
    else
      assert rows == [rows[0]] + rows[1..];
      [rows[0]] + Insert(r, rows[1..], ascending)
  }

  /** A date that comes no later than `r` and than every row comes no later
      than every row of the result. */
  lemma {:induction false} InsertBounded(r: Row, rows: seq<Row>, ascending: bool, bound: int)
    requires InOrder(bound, r.date, ascending)
    requires forall i :: 0 <= i < |rows| ==> InOrder(bound, rows[i].date, ascending)
    ensures forall i :: 0 <= i < |Insert(r, rows, ascending)| ==> InOrder(bound, Insert(r, rows, ascending)[i].date, ascending)
  {
    if rows != [] && !InOrder(r.date, rows[0].date, ascending) {
      InsertBounded(r, rows[1..], ascending, bound);
    }
  }

  /** Inserting into a sorted table keeps it sorted. */
  lemma {:induction false} InsertSorted(r: Row, rows: seq<Row>, ascending: bool)
    requires SortedBy(rows, ascending)
    ensures SortedBy(Insert(r, rows, ascending), ascending)
  {
    if rows != [] && !InOrder(r.date, rows[0].date, ascending) {
      var tail := rows[1..];
      InsertSorted(r, tail, ascending);
      InsertBounded(r, tail, ascending, rows[0].date);
      var out := Insert(r, rows, ascending);
      assert out == [rows[0]] + Insert(r, tail, ascending);
    }
  }

  /** `sort_index(ascending=...)`: an insertion sort on the date. */
  function SortRows(rows: seq<Row>, ascending: bool): (out: seq<Row>)
    ensures SortedBy(out, ascending)
    ensures multiset(out) == multiset(rows)
    ensures |out| == |rows|
  {
    if rows == [] then []
    else
      assert rows == [rows[0]] + rows[1..];
      InsertSorted(rows[0], SortRows(rows[1..], ascending), ascending);
      Insert(rows[0], SortRows(rows[1..], ascending), ascending)
  }

  /** Sorting a table that is already in order returns it unchanged, so the
      ascending sort is idempotent. */
  lemma {:induction false} SortSortedIsIdentity(rows: seq<Row>, ascending: bool)
    requires SortedBy(rows, ascending)
    ensures SortRows(rows, ascending) == rows
  {
    if rows != [] {
      SortSortedIsIdentity(rows[1..], ascending);
      assert rows == [rows[0]] + rows[1..];
    }
  }

  lemma SortIdempotent(rows: seq<Row>, ascending: bool)
    ensures SortRows(SortRows(rows, ascending), ascending) == SortRows(rows, ascending)
  {
    SortSortedIsIdentity(SortRows(rows, ascending), ascending);
  }

  /** The rows of a permutation are the same rows. */
  lemma SameRows(a: seq<Row>, b: seq<Row>, x: Row)
    requires multiset(a) == multiset(b)
    ensures x in a <==> x in b
  {
    assert x in a <==> x in multiset(a);
    assert x in b <==> x in multiset(b);
  }

  /** Inserting a row whose date is new into a table without repeated dates
      gives a table without repeated dates. */
  lemma {:induction false} InsertKeepsDistinct(r: Row, rows: seq<Row>, ascending: bool)
    requires DistinctDates(rows)
    requires forall i :: 0 <= i < |rows| ==> rows[i].date != r.date
    ensures DistinctDates(Insert(r, rows, ascending))
  {
    if rows != [] && !InOrder(r.date, rows[0].date, ascending) {
      InsertKeepsDistinct(r, rows[1..], ascending);
      var tail := Insert(r, rows[1..], ascending);
      forall k | 0 <= k < |tail|
        ensures tail[k].date != rows[0].date
      {
        assert tail[k] in multiset(tail);
        assert tail[k] == r || tail[k] in multiset(rows[1..]);
        if tail[k] != r {
          assert tail[k] in rows[1..];
        }
      }
    }
  }

  /** Sorting keeps the dates distinct. */
  lemma {:induction false} SortKeepsDistinct(rows: seq<Row>, ascending: bool)
    requires DistinctDates(rows)
    ensures DistinctDates(SortRows(rows, ascending))
  {
    if rows != [] {
      var tail := rows[1..];
      SortKeepsDistinct(tail, ascending);
      var sortedTail := SortRows(tail, ascending);
      forall k | 0 <= k < |sortedTail|
        ensures sortedTail[k].date != rows[0].date
      {
        SameRows(sortedTail, tail, sortedTail[k]);
        var m :| 0 <= m < |tail| && tail[m] == sortedTail[k];
        assert rows[m + 1] == tail[m];
      }
      InsertKeepsDistinct(rows[0], sortedTail, ascending);
    }
  }

  /** Sorted with distinct dates means strictly ordered. */
  lemma SortedDistinctIsStrict(rows: seq<Row>, ascending: bool)
    requires SortedBy(rows, ascending) && DistinctDates(rows)
    ensures forall i, j :: 0 <= i < j < |rows| ==>
              if ascending then rows[i].date < rows[j].date else rows[i].date > rows[j].date
  {
  }

  /** Sorting keeps every row's width. */
  lemma SortKeepsRectangular(width: nat, rows: seq<Row>, ascending: bool)
    requires Rectangular(width, rows)
    ensures Rectangular(width, SortRows(rows, ascending))
  {
    var sorted := SortRows(rows, ascending);
    forall i | 0 <= i < |sorted|
      ensures |sorted[i].cells| == width
    {
      SameRows(sorted, rows, sorted[i]);
    }
  }
}
