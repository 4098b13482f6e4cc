/** Worked requests: what the contracts of the pipeline pin down for the
    three downloads that the repository's tests feed to `/plot`
    (tests/test_app.py, lines 98-177). Dates are day numbers in January 2023. */
module ReportExamples {
  import opened Text
  import opened Columns
  import opened Series
  import opened Statistics
  import opened PriceChart
  import opened Table
  import opened ReportBuilder

  function PriceColumns(): (cols: seq<ColumnId>)
    ensures |cols| == 5
  {
    [Label("open"), Label("high"), Label("low"), Label("close"), Label("volume")]
  }

  lemma PriceColumnNames()
    ensures NormalizeAll(PriceColumns()) == ["open", "high", "low", "close", "volume"]
    ensures Positions(NormalizeAll(PriceColumns()), CloseKey) == [3]
  {
    var names := NormalizeAll(PriceColumns());
    assert Lower("open") == "open" && Lower("high") == "high" && Lower("low") == "low";
    assert Lower("close") == "close" && Lower("volume") == "volume";
    assert names == ["open", "high", "low", "close", "volume"];
    // Only "close" has the length of "close".
    assert PositionsFrom(names, CloseKey, 5) == [];
    assert PositionsFrom(names, CloseKey, 4) == [];
    assert PositionsFrom(names, CloseKey, 3) == [3];
    assert PositionsFrom(names, CloseKey, 2) == [3];
    assert PositionsFrom(names, CloseKey, 1) == [3];
    assert PositionsFrom(names, CloseKey, 0) == [3];
  }

  /** A provider's multi-level identifier `('Close', 'AAPL')` becomes `close`. */
  lemma CompositeCloseColumn()
    ensures NormalizedName(Composite("Close", ["AAPL"])) == "close"
  {
    assert Lower("Close") == "close";
  }

  /** `n` consecutive daily bars from day 1 under the five price columns:
      open 150 + i, high 155 + i, low 149 + i, close 152 + i and volume
      1000 + volumeStep * i on day i + 1. */
  function DailyBars(n: nat, volumeStep: real): (d: Download)
    ensures d.columns == PriceColumns() && |d.rows| == n
    ensures Rectangular(|d.columns|, d.rows)
    ensures forall i :: 0 <= i < n ==> d.rows[i].date == i + 1 && d.rows[i].cells[3] == 152.0 + i as real
  {
    Download(PriceColumns(), seq(n, i requires 0 <= i < n =>
      Row(i + 1, [150.0 + i as real, 155.0 + i as real, 149.0 + i as real, 152.0 + i as real, 1000.0 + volumeStep * i as real])))
  }

  lemma ThreeBarPrices(d: Download, minPrice: real, maxPrice: real, meanPrice: real)
    requires StatisticsOf(d, minPrice, maxPrice, meanPrice)
    requires d.columns == PriceColumns() && |d.rows| == 3
    requires forall i :: 0 <= i < 3 ==> d.rows[i].cells[3] == 152.0 + i as real
    ensures minPrice == 152.0 && maxPrice == 154.0 && meanPrice == 153.0
  {
    PriceColumnNames();
    assert FirstClose(d) == 3;
    assert Column(d.rows, 3) == [152.0, 153.0, 154.0];
    ThreeBarStatistics();
  }

  lemma ThreeBarTable(d: Download, t: Frame)
    requires |d.rows| == 3 && forall i :: 0 <= i < 3 ==> d.rows[i].date == i + 1
    requires TableOf(d, t)
    ensures |t.rows| == 3
    ensures forall i, j :: 0 <= i < j < 3 ==> t.rows[i].date > t.rows[j].date
  {
    assert DistinctDates(d.rows);
  }

  /** The three-bar request: minimum 152, maximum 154, mean 153, title
      "AAPL Stock Price", and a three-row table newest first. */
  method ThreeBarRequest() returns (out: PlotOutcome)
    ensures out.ResultPage?
    ensures out.report.minPrice == 152.0 && out.report.maxPrice == 154.0 && out.report.meanPrice == 153.0
    ensures out.report.chart.title == "AAPL Stock Price"
    ensures |out.report.table.rows| == 3
    ensures forall i, j :: 0 <= i < j < 3 ==> out.report.table.rows[i].date > out.report.table.rows[j].date
  {
    var d := DailyBars(3, 100.0);
    PriceColumnNames();
    out := Plot("AAPL", d);
    ThreeBarPrices(d, out.report.minPrice, out.report.maxPrice, out.report.meanPrice);
    ThreeBarTable(d, out.report.table);
    AaplTitle();
  }

  /** Consecutive daily bars are already in ascending order, so the table
      built from the sorted download is the table of the download itself. */
  lemma ConsecutiveDaysSorted(rows: seq<Row>, first: int)
    requires forall i :: 0 <= i < |rows| ==> rows[i].date == first + i
    ensures TableRows(SortRows(rows, true)) == TableRows(rows)
  {
    assert SortedBy(rows, true);
    SortSortedIsIdentity(rows, true);
  }

  /** The table of more than 20 daily bars from day 1: 20 rows, the last day
      first, and day 1 nowhere. */
  lemma ManyBarTableRows(rows: seq<Row>, table: seq<Row>)
    requires |rows| > MaxTableRows && forall i :: 0 <= i < |rows| ==> rows[i].date == 1 + i
    requires table == TableRows(SortRows(rows, true))
    ensures |table| == MaxTableRows
    ensures table[0].date == |rows|
    ensures forall i :: 0 <= i < |table| ==> table[i].date != 1
  {
    ConsecutiveDaysSorted(rows, 1);
    ConsecutiveDaysTable(rows, 1);
  }

  lemma ManyBarTable(d: Download, t: Frame)
    requires |d.rows| > MaxTableRows && forall i :: 0 <= i < |d.rows| ==> d.rows[i].date == 1 + i
    requires TableOf(d, t)
    ensures |t.rows| == MaxTableRows
    ensures t.rows[0].date == |d.rows|
    ensures forall i :: 0 <= i < |t.rows| ==> t.rows[i].date != 1
  {
    ManyBarTableRows(d.rows, t.rows);
  }

  /** The long-range request: more than 20 daily bars from day 1 (the
      repository's test uses 30) give a table of 20 rows with the last day on
      top and day 1 left out. */
  method LongRangeRequest(n: nat) returns (out: PlotOutcome)
    requires n > MaxTableRows
    ensures out.ResultPage?
    ensures |out.report.table.rows| == MaxTableRows
    ensures out.report.table.rows[0].date == n
    ensures forall i :: 0 <= i < MaxTableRows ==> out.report.table.rows[i].date != 1
  {
    var d := DailyBars(n, 10.0);
    PriceColumnNames();
    out := Plot("AAPL", d);
    ManyBarTable(d, out.report.table);
  }

  /** The request whose download is empty ends on the "no data" page. */
  method NoDataRequest() returns (out: PlotOutcome)
    ensures out.ErrorPage?
  {
    out := Plot("INVALID", Download([], []));
  }
}
