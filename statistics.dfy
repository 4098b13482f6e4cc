/** Minimum, maximum and mean of the closing price (app.py, lines 134-139),
    including the rule that takes the first element when the library returns
    one value per selected column instead of a single value. */
module Statistics {
  import opened Series

  function Min(s: seq<real>): (m: real)
    requires |s| > 0
    ensures m in s
    ensures forall i :: 0 <= i < |s| ==> m <= s[i]
  {
    if |s| == 1 then s[0]
    else
      var rest := Min(s[1..]);
      if s[0] <= rest then s[0] else rest
  }

  function Max(s: seq<real>): (m: real)
    requires |s| > 0
    ensures m in s
    ensures forall i :: 0 <= i < |s| ==> s[i] <= m
  {
    if |s| == 1 then s[0]
    else
      var rest := Max(s[1..]);
      if s[0] >= rest then s[0] else rest
  }

  function Sum(s: seq<real>): real
  {
    if s == [] then 0.0 else s[0] + Sum(s[1..])
  }

  /** The arithmetic mean: the value whose |s| copies add up to the sum. */
  function Mean(s: seq<real>): (m: real)
    requires |s| > 0
    ensures m * (|s| as real) == Sum(s)
  {
    Sum(s) / (|s| as real)
  }

  /** A sum of values that all lie in [lo, hi] lies between |s|*lo and |s|*hi. */
  lemma {:induction false} SumBetween(s: seq<real>, lo: real, hi: real)
    requires forall i :: 0 <= i < |s| ==> lo <= s[i] <= hi
    ensures (|s| as real) * lo <= Sum(s) <= (|s| as real) * hi
  {
    if s != [] {
      SumBetween(s[1..], lo, hi);
    }
  }

  /** The mean of values that all lie in [lo, hi] lies in [lo, hi]. */
  lemma MeanBetween(s: seq<real>, lo: real, hi: real)
    requires |s| > 0
    requires forall i :: 0 <= i < |s| ==> lo <= s[i] <= hi
    ensures lo <= Mean(s) <= hi
  {
    SumBetween(s, lo, hi);
    QuotientBetween(Sum(s), |s| as real, lo, hi);
  }

  /** The mean of a non-empty series lies between its minimum and its maximum. */
  lemma MeanBetweenMinAndMax(s: seq<real>)
    requires |s| > 0
    ensures Min(s) <= Mean(s) <= Max(s)
  {
    MeanBetween(s, Min(s), Max(s));
  }

  lemma QuotientBetween(x: real, n: real, lo: real, hi: real)
    requires n > 0.0 && n * lo <= x <= n * hi
    ensures lo <= x / n <= hi
  {
    assert x / n - lo == (x - n * lo) / n;
    assert hi - x / n == (n * hi - x) / n;
  }

  lemma {:induction false} SumConcat(a: seq<real>, b: seq<real>)
    ensures Sum(a + b) == Sum(a) + Sum(b)
  {
    if a == [] {
      assert a + b == b;
    } else {
      SumConcat(a[1..], b);
      assert (a + b)[0] == a[0];
      assert (a + b)[1..] == a[1..] + b;
    }
  }

  /** Taking out the value at position k takes it out of the sum. */
  lemma SumRemove(b: seq<real>, k: nat)
    requires k < |b|
    ensures Sum(b) == b[k] + Sum(b[..k] + b[k + 1..])
  {
    var front, back := b[..k], b[k..];
    assert b == front + back;
    assert back[0] == b[k] && back[1..] == b[k + 1..];
    SumConcat(front, back);
    SumConcat(front, b[k + 1..]);
  }

  /** Taking out the value at position k takes one copy of it out of the multiset. */
  lemma MultisetRemove(b: seq<real>, k: nat)
    requires k < |b|
    ensures multiset(b[..k] + b[k + 1..]) == multiset(b) - multiset{b[k]}
  {
    var front, back := b[..k], b[k..];
    assert b == front + back;
    assert back == [b[k]] + b[k + 1..];
  }

  /** A value that occurs in a multiset of a sequence occurs at some position. */
  lemma PositionOf(b: seq<real>, x: real) returns (k: nat)
    requires x in multiset(b)
    ensures k < |b| && b[k] == x
  {
    assert x in b;
    k :| 0 <= k < |b| && b[k] == x;
  }

  /** Taking the first value out of `a` and a copy of it out of `b` keeps them permutations of each other. */
  lemma RemoveMatching(a: seq<real>, b: seq<real>, k: nat)
    requires multiset(a) == multiset(b) && |a| > 0 && k < |b| && b[k] == a[0]
    ensures multiset(a[1..]) == multiset(b[..k] + b[k + 1..])
  {
    MultisetRemove(b, k);
    assert a == [a[0]] + a[1..];
  }

  /** The sum does not depend on the order of the values. */
  lemma {:induction false} SumPermutation(a: seq<real>, b: seq<real>)
    requires multiset(a) == multiset(b)
    ensures Sum(a) == Sum(b)
  {
    if a != [] {
      var k := PositionOf(b, a[0]);
      RemoveMatching(a, b, k);
      SumPermutation(a[1..], b[..k] + b[k + 1..]);
      SumRemove(b, k);
    }
  }

  /** Minimum, maximum and mean depend only on which values occur how often,
      not on the order of the rows. */
  lemma StatisticsIgnoreOrder(a: seq<real>, b: seq<real>)
    requires |a| > 0 && multiset(a) == multiset(b)
    ensures |b| > 0
    ensures Min(a) == Min(b) && Max(a) == Max(b) && Mean(a) == Mean(b)
  {
    assert |multiset(a)| == |a| && |multiset(b)| == |b|;
    assert Min(a) in multiset(b) && Min(b) in multiset(a);
    assert Max(a) in multiset(b) && Max(b) in multiset(a);
    SumPermutation(a, b);
  }

  /** Inserting a row that has a column `j` into rows that all have it gives rows that all have it. */
  lemma InsertKeepsColumn(r: Row, rows: seq<Row>, ascending: bool, j: nat)
    requires j < |r.cells| && forall i :: 0 <= i < |rows| ==> j < |rows[i].cells|
    ensures forall i :: 0 <= i < |Insert(r, rows, ascending)| ==> j < |Insert(r, rows, ascending)[i].cells|
  {
    var out := Insert(r, rows, ascending);
    forall i | 0 <= i < |out|
      ensures j < |out[i].cells|
    {
      assert out[i] in multiset(out);
      if out[i] != r {
        assert out[i] in multiset(rows);
      }
    }
  }

  /** The column of a row put in front of some rows. */
  lemma ColumnCons(x: Row, rows: seq<Row>, j: nat)
    requires j < |x.cells| && forall i :: 0 <= i < |rows| ==> j < |rows[i].cells|
    ensures forall i :: 0 <= i < |[x] + rows| ==> j < |([x] + rows)[i].cells|
    ensures multiset(Column([x] + rows, j)) == multiset{x.cells[j]} + multiset(Column(rows, j))
  {
    assert Column([x] + rows, j) == [x.cells[j]] + Column(rows, j);
  }

  /** After a row is inserted, the column gains exactly that row's value. */
  lemma {:induction false} ColumnOfInsert(r: Row, rows: seq<Row>, ascending: bool, j: nat)
    requires j < |r.cells| && forall i :: 0 <= i < |rows| ==> j < |rows[i].cells|
    ensures forall i :: 0 <= i < |Insert(r, rows, ascending)| ==> j < |Insert(r, rows, ascending)[i].cells|
    ensures multiset(Column(Insert(r, rows, ascending), j)) == multiset(Column(rows, j)) + multiset{r.cells[j]}
  {
    InsertKeepsColumn(r, rows, ascending, j);
    if rows == [] || InOrder(r.date, rows[0].date, ascending) {
      assert Insert(r, rows, ascending) == [r] + rows;
      ColumnCons(r, rows, j);
    } else {
      var tail := Insert(r, rows[1..], ascending);
      assert Insert(r, rows, ascending) == [rows[0]] + tail;
      ColumnOfInsert(r, rows[1..], ascending, j);
      ColumnCons(rows[0], tail, j);
      ColumnCons(rows[0], rows[1..], j);
      assert rows == [rows[0]] + rows[1..];
    }
  }

  /** Sorting rows that all have a column `j` gives rows that all have it. */
  lemma SortKeepsColumn(rows: seq<Row>, ascending: bool, j: nat)
    requires forall i :: 0 <= i < |rows| ==> j < |rows[i].cells|
    ensures forall i :: 0 <= i < |rows| ==> j < |SortRows(rows, ascending)[i].cells|
  {
    var sorted := SortRows(rows, ascending);
    forall i | 0 <= i < |sorted|
      ensures j < |sorted[i].cells|
    {
      SameRows(sorted, rows, sorted[i]);
    }
  }

  lemma {:induction false} ColumnOfSort(rows: seq<Row>, ascending: bool, j: nat)
    requires forall i :: 0 <= i < |rows| ==> j < |rows[i].cells|
    ensures forall i :: 0 <= i < |rows| ==> j < |SortRows(rows, ascending)[i].cells|
    ensures multiset(Column(SortRows(rows, ascending), j)) == multiset(Column(rows, j))
  {
    SortKeepsColumn(rows, ascending, j);
    if rows != [] {
      ColumnOfSort(rows[1..], ascending, j);
      ColumnOfInsert(rows[0], SortRows(rows[1..], ascending), ascending, j);
      ColumnCons(rows[0], rows[1..], j);
      assert rows == [rows[0]] + rows[1..];
    }
  }

  /** The three statistics of `close`. */
  datatype Aggregate = Minimum | Maximum | Average

  function Apply(agg: Aggregate, s: seq<real>): real
    requires |s| > 0
  {
    match agg
    case Minimum => Min(s)
    case Maximum => Max(s)
    case Average => Mean(s)
  }

  /** What `.min()`, `.max()` or `.mean()` returns: a single value when one
      column was selected, one value per column (a series) when several were. */
  datatype Stat = Scalar(value: real) | PerColumn(values: seq<real>)

  /** The aggregate over the selected columns `js` of `rows`. */
  function Statistic(agg: Aggregate, rows: seq<Row>, js: seq<nat>): (st: Stat)
    requires |rows| > 0 && |js| > 0
    requires forall k, i :: 0 <= k < |js| && 0 <= i < |rows| ==> js[k] < |rows[i].cells|
    ensures st.Scalar? <==> |js| == 1
    ensures st.Scalar? ==> st.value == Apply(agg, Column(rows, js[0]))
    ensures st.PerColumn? ==> |st.values| == |js|
    ensures st.PerColumn? ==> forall k :: 0 <= k < |js| ==> st.values[k] == Apply(agg, Column(rows, js[k]))
  {
    if |js| == 1 then Scalar(Apply(agg, Column(rows, js[0])))
    else PerColumn(seq(|js|, k requires 0 <= k < |js| => Apply(agg, Column(rows, js[k]))))
  }

  /** `x.iloc[0] if isinstance(x, pd.Series) else x`. */
  function FirstIfSeries(st: Stat): (r: real)
    requires st.PerColumn? ==> |st.values| > 0
    ensures st.PerColumn? ==> r == st.values[0]
    ensures st.Scalar? ==> r == st.value
  {
    if st.PerColumn? then st.values[0] else st.value
  }

  /** Whatever the number of selected columns, the reported statistic is the
      statistic of the first selected column. */
  lemma StatisticOfFirstColumn(agg: Aggregate, rows: seq<Row>, js: seq<nat>)
    requires |rows| > 0 && |js| > 0
    requires forall k, i :: 0 <= k < |js| && 0 <= i < |rows| ==> js[k] < |rows[i].cells|
    ensures FirstIfSeries(Statistic(agg, rows, js)) == Apply(agg, Column(rows, js[0]))
  {
  }

  /** The three reported prices are ordered: minimum, then mean, then maximum. */
  lemma ReportedPricesOrdered(rows: seq<Row>, js: seq<nat>)
    requires |rows| > 0 && |js| > 0
    requires forall k, i :: 0 <= k < |js| && 0 <= i < |rows| ==> js[k] < |rows[i].cells|
    ensures FirstIfSeries(Statistic(Minimum, rows, js)) <= FirstIfSeries(Statistic(Average, rows, js))
    ensures FirstIfSeries(Statistic(Average, rows, js)) <= FirstIfSeries(Statistic(Maximum, rows, js))
  {
    StatisticOfFirstColumn(Minimum, rows, js);
    StatisticOfFirstColumn(Average, rows, js);
    StatisticOfFirstColumn(Maximum, rows, js);
    MeanBetweenMinAndMax(Column(rows, js[0]));
  }

  /** Closing prices 152, 153 and 154 give minimum 152, maximum 154 and mean 153. */
  lemma ThreeBarStatistics()
    ensures Min([152.0, 153.0, 154.0]) == 152.0
    ensures Max([152.0, 153.0, 154.0]) == 154.0
    ensures Mean([152.0, 153.0, 154.0]) == 153.0
  {
    var s := [152.0, 153.0, 154.0];
    assert s[1..] == [153.0, 154.0] && s[1..][1..] == [154.0];
    assert Sum(s) == 459.0;
  }
}
