/** The table view (app.py, lines 178-180): the rows re-sorted newest first
    and cut to the 20 most recent. */
module Table {
  import opened Series

  const MaxTableRows: nat := 20

  function MinNat(a: nat, b: nat): nat { if a <= b then a else b }

  /** Specification of the table view. */
  function TableRows(rows: seq<Row>): (table: seq<Row>)
    ensures |table| == MinNat(MaxTableRows, |rows|)
    ensures SortedBy(table, false)
  {
    var sorted := SortRows(rows, false);
    PrefixSorted(sorted, MinNat(MaxTableRows, |sorted|), false);
    sorted[..MinNat(MaxTableRows, |sorted|)]
  }

  /** `data.sort_index(ascending=False)`, then `head(20)` only when there are more than 20 rows. */
  method TableView(rows: seq<Row>) returns (table: seq<Row>)
    ensures |table| == MinNat(MaxTableRows, |rows|)
    ensures SortedBy(table, false)
    ensures multiset(table) <= multiset(rows)
    ensures forall x, y :: x in multiset(rows) - multiset(table) && y in table ==> x.date <= y.date
    ensures table == TableRows(rows)
  {
    table := SortRows(rows, false);
    if |table| > MaxTableRows {
      table := table[..MaxTableRows];
    }
    TablePrefix(rows);
    TableKeepsNewest(rows);
  }

  /** The table is the front of the descending sort, and what it leaves out is the rest. */
  lemma TablePrefix(rows: seq<Row>)
    ensures |TableRows(rows)| == MinNat(MaxTableRows, |rows|)
    ensures SortedBy(TableRows(rows), false)
    ensures multiset(TableRows(rows)) + multiset(SortRows(rows, false)[|TableRows(rows)|..]) == multiset(rows)
  {
    var sorted := SortRows(rows, false);
    var k := MinNat(MaxTableRows, |sorted|);
    PrefixSorted(sorted, k, false);
    SplitMultiset(sorted, k);
  }

  lemma PrefixSorted(s: seq<Row>, k: nat, ascending: bool)
    requires SortedBy(s, ascending) && k <= |s|
    ensures SortedBy(s[..k], ascending)
  {
    assert forall i :: 0 <= i < k ==> s[..k][i] == s[i];
  }

  lemma SplitMultiset(s: seq<Row>, k: nat)
    requires k <= |s|
    ensures multiset(s[..k]) + multiset(s[k..]) == multiset(s)
  {
    assert s == s[..k] + s[k..];
  }

  /** In a newest-first table, every row after position k is no newer than every row before it. */
  lemma BackNoNewerThanFront(sorted: seq<Row>, k: nat)
    requires SortedBy(sorted, false) && k <= |sorted|
    ensures forall x, y :: x in multiset(sorted[k..]) && y in sorted[..k] ==> x.date <= y.date
  {
    forall x: Row, y: Row | x in multiset(sorted[k..]) && y in sorted[..k]
      ensures x.date <= y.date
    {
      var a :| 0 <= a < |sorted| - k && sorted[k..][a] == x;
      var b :| 0 <= b < k && sorted[..k][b] == y;
      assert sorted[k + a] == x && sorted[b] == y;
    }
  }

  /** Every row left out of the table is no newer than every row in it. */
  lemma TableKeepsNewest(rows: seq<Row>)
    ensures forall x, y :: x in multiset(rows) - multiset(TableRows(rows)) && y in TableRows(rows) ==> x.date <= y.date
  {
    var sorted := SortRows(rows, false);
    var table := TableRows(rows);
    var k := |table|;
    assert multiset(rows) - multiset(table) == multiset(sorted[k..]) by {
      TablePrefix(rows);
    }
    assert table == sorted[..k];
    BackNoNewerThanFront(sorted, k);
  }

  /** Without repeated dates the table is strictly newest first. */
  lemma TableStrictlyDescending(rows: seq<Row>)
    requires DistinctDates(rows)
    ensures forall i, j :: 0 <= i < j < |TableRows(rows)| ==> TableRows(rows)[i].date > TableRows(rows)[j].date
  {
    SortKeepsDistinct(rows, false);
    var sorted := SortRows(rows, false);
    var table := TableRows(rows);
    assert forall i :: 0 <= i < |table| ==> table[i] == sorted[i];
  }

  /** Without repeated dates, the newest row heads the table. */
  lemma TableHasNewest(rows: seq<Row>, n: nat)
    requires DistinctDates(rows)
    requires n < |rows| && forall i :: 0 <= i < |rows| ==> rows[i].date <= rows[n].date
    ensures |TableRows(rows)| > 0 && TableRows(rows)[0] == rows[n]
  {
    var sorted := SortRows(rows, false);
    SameRows(sorted, rows, sorted[0]);
    SameRows(sorted, rows, rows[n]);
    var p :| 0 <= p < |rows| && rows[p] == sorted[0];
    var q :| 0 <= q < |sorted| && sorted[q] == rows[n];
    assert q > 0 ==> sorted[0].date >= sorted[q].date;
    assert p == n;
    assert TableRows(rows)[0] == sorted[0];
  }

  /** Without repeated dates and with more than 20 rows, the oldest row is not in the table. */
  lemma TableDropsOldest(rows: seq<Row>, o: nat)
    requires DistinctDates(rows) && |rows| > MaxTableRows
    requires o < |rows| && forall i :: 0 <= i < |rows| ==> rows[o].date <= rows[i].date
    ensures rows[o] !in TableRows(rows)
  {
    var sorted := SortRows(rows, false);
    SortKeepsDistinct(rows, false);
    var table := TableRows(rows);
    var last := sorted[|sorted| - 1];
    SameRows(sorted, rows, last);
    var m :| 0 <= m < |rows| && rows[m] == last;
    assert rows[o].date <= last.date;
    forall b | 0 <= b < |table|
      ensures table[b] != rows[o]
    {
      assert table[b] == sorted[b];
      assert b < |sorted| - 1;
      assert sorted[b].date > last.date;
    }
  }

  /** For more than 20 consecutive daily bars the table leaves out the first
      day and starts with the last. */
  lemma ConsecutiveDaysTable(rows: seq<Row>, first: int)
    requires |rows| > MaxTableRows
    requires forall i :: 0 <= i < |rows| ==> rows[i].date == first + i
    ensures |TableRows(rows)| == MaxTableRows
    ensures TableRows(rows)[0] == rows[|rows| - 1]
    ensures forall i :: 0 <= i < |TableRows(rows)| ==> TableRows(rows)[i].date != first
  {
    var table := TableRows(rows);
    assert DistinctDates(rows);
    assert |table| == MaxTableRows && multiset(table) <= multiset(rows) by {
      TablePrefix(rows);
    }
    TableHasNewest(rows, |rows| - 1);
    TableDropsOldest(rows, 0);
    forall i | 0 <= i < |table|
      ensures table[i].date != first
    {
      assert table[i] in multiset(rows);
      var m :| 0 <= m < |rows| && rows[m] == table[i];
      assert m != 0;
    }
  }
}
