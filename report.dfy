/** The report-building pipeline of the `/plot` request (app.py, lines
    110-196): normalise the column names, stop on an empty table, sort by
    date, compute the statistics of `close`, describe the chart and build
    the table view. The download is an input; templating is not modelled. */
module ReportBuilder {
  import opened Text
  import opened Columns
  import opened Series
  import opened Statistics
  import opened PriceChart
  import opened Table

  /** The table the market-data provider returns, before its column names are normalised. */
  datatype Download = Download(columns: seq<ColumnId>, rows: seq<Row>)

  /** What the result page shows: the ticker as typed, the three statistics
      before their two-decimal formatting, the chart and the table view. */
  datatype Report = Report(
    ticker: string,
    minPrice: real,
    maxPrice: real,
    meanPrice: real,
    chart: Chart,
    table: Frame)

  /** An exception that leaves the request unhandled. */
  datatype Exception = KeyError(key: string)

  /** The three ways a request ends: the "no data" page, the result page,
      or an exception raised out of the handler. */
  datatype PlotOutcome = ErrorPage | ResultPage(report: Report) | Raised(exception: Exception)

  const CloseKey: string := "close"

  /** The first column whose normalised name is `close`. */
  function FirstClose(d: Download): (j: nat)
    requires Positions(NormalizeAll(d.columns), CloseKey) != []
    ensures j < |d.columns| && NormalizedName(d.columns[j]) == CloseKey
    ensures forall i :: 0 <= i < j ==> NormalizedName(d.columns[i]) != CloseKey
  {
    FirstPositionIsLeftmost(NormalizeAll(d.columns), CloseKey);
    Positions(NormalizeAll(d.columns), CloseKey)[0]
  }

  /** The reported prices are the minimum, maximum and mean of the first
      `close` column over all downloaded rows, and they are ordered. */
  predicate StatisticsOf(d: Download, minPrice: real, maxPrice: real, meanPrice: real)
  {
    && Rectangular(|d.columns|, d.rows) && |d.rows| > 0
    && Positions(NormalizeAll(d.columns), CloseKey) != []
    && var close := Column(d.rows, FirstClose(d));
    && minPrice == Min(close) && maxPrice == Max(close) && meanPrice == Mean(close)
    && minPrice <= meanPrice <= maxPrice
  }

  /** One line per `close` column: that column's values in ascending date order. */
  predicate LinesOf(d: Download, lines: seq<seq<real>>)
    requires Rectangular(|d.columns|, d.rows)
  {
    var close := Positions(NormalizeAll(d.columns), CloseKey);
    assert Rectangular(|d.columns|, SortRows(d.rows, true)) by {
      SortKeepsRectangular(|d.columns|, d.rows, true);
    }
    && |lines| == |close|
    && forall k :: 0 <= k < |lines| ==> lines[k] == Column(SortRows(d.rows, true), close[k])
  }

  /** The chart: title, fixed axis labels, marker band, one line per `close`
      column with one point per row in date order, and the ticks with their date labels. */
  predicate ChartOf(ticker: string, d: Download, c: Chart)
  {
    var n := |d.rows|;
    && c.title == Title(ticker)
    && c.xLabel == "Date" && c.yLabel == "Price (USD)" && c.grid && c.labelRotation == 90
    && c.markerSize == MarkerSize(n)
    && |c.lines| == |Positions(NormalizeAll(d.columns), CloseKey)|
    && (forall k :: 0 <= k < |c.lines| ==> |c.lines[k]| == n)
    && (Rectangular(|d.columns|, d.rows) ==> LinesOf(d, c.lines))
    && c.ticks == Ticks(n)
    && (forall k :: 0 <= k < |c.ticks| ==> c.ticks[k] < n)
    && c.tickLabels == TickLabels(Dates(SortRows(d.rows, true)), c.ticks)
  }

  /** The table view: normalised names, at most 20 rows, newest first, the
      most recent rows of the download, strictly newest first when no date repeats. */
  predicate TableOf(d: Download, t: Frame)
  {
    && t.columns == NormalizeAll(d.columns)
    && t.rows == TableRows(SortRows(d.rows, true))
    && |t.rows| == MinNat(MaxTableRows, |d.rows|)
    && SortedBy(t.rows, false)
    && multiset(t.rows) <= multiset(d.rows)
    && (forall x, y :: x in multiset(d.rows) - multiset(t.rows) && y in t.rows ==> x.date <= y.date)
    && (DistinctDates(d.rows) ==> forall i, j :: 0 <= i < j < |t.rows| ==> t.rows[i].date > t.rows[j].date)
  }

  /** The request handler up to the empty-table check (app.py, lines 113-129),
      then the report (lines 131-196). */
  method Plot(ticker: string, download: Download) returns (out: PlotOutcome)
    requires Rectangular(|download.columns|, download.rows)
    // An empty table (no rows, or no columns) ends on the "no data" page.
    ensures out.ErrorPage? <==> |download.rows| == 0 || |download.columns| == 0
    // Otherwise a table without a `close` column raises a KeyError.
    ensures out.Raised? <==>
              |download.rows| > 0 && |download.columns| > 0 &&
              forall i :: 0 <= i < |download.columns| ==> NormalizedName(download.columns[i]) != CloseKey
    ensures out.Raised? ==> out.exception == KeyError(CloseKey)
    // Otherwise the report.
    ensures out.ResultPage? ==>
              && |download.rows| > 0
              && Positions(NormalizeAll(download.columns), CloseKey) != []
              && out.report.ticker == ticker
              && StatisticsOf(download, out.report.minPrice, out.report.maxPrice, out.report.meanPrice)
              && ChartOf(ticker, download, out.report.chart)
              && TableOf(download, out.report.table)
  {
    var newColumns := NormalizeColumns(download.columns);
    var data := Frame(newColumns, download.rows);

    if IsEmpty(data) {
      return ErrorPage;
    }
    if Positions(data.columns, CloseKey) == [] {
      // The sort of line 131 happens first, but changes nothing observable before the KeyError.
      return Raised(KeyError(CloseKey));
    }
    var report := BuildReport(ticker, download, data);
    out := ResultPage(report);
  }

  /** Lines 131-196 for a non-empty table that has a `close` column: sort,
      statistics, chart and table view. */
  method BuildReport(ticker: string, download: Download, data: Frame) returns (report: Report)
    requires Rectangular(|download.columns|, download.rows)
    requires data.columns == NormalizeAll(download.columns) && data.rows == download.rows
    requires |data.rows| > 0 && Positions(data.columns, CloseKey) != []
    ensures report.ticker == ticker
    ensures StatisticsOf(download, report.minPrice, report.maxPrice, report.meanPrice)
    ensures ChartOf(ticker, download, report.chart)
    ensures TableOf(download, report.table)
  {
    var sorted := data.(rows := SortRows(data.rows, true));
    var minPrice, maxPrice, meanPrice := ComputeStatistics(download, sorted);
    var chart := DrawChart(ticker, download, sorted);
    var tableRows := TableView(sorted.rows);
    var table := Frame(sorted.columns, tableRows);
    ReportedTable(download, table);
    report := Report(ticker, minPrice, maxPrice, meanPrice, chart, table);
  }

  /** Lines 134-139: the statistics of `close` on the sorted table. */
  method ComputeStatistics(download: Download, sorted: Frame) returns (minPrice: real, maxPrice: real, meanPrice: real)
    requires Rectangular(|download.columns|, download.rows) && |download.rows| > 0
    requires sorted.columns == NormalizeAll(download.columns) && sorted.rows == SortRows(download.rows, true)
    requires Positions(sorted.columns, CloseKey) != []
    ensures StatisticsOf(download, minPrice, maxPrice, meanPrice)
  {
    var close := Positions(sorted.columns, CloseKey);
    ReportedStatistics(download);
    minPrice := FirstIfSeries(Statistic(Minimum, sorted.rows, close));
    maxPrice := FirstIfSeries(Statistic(Maximum, sorted.rows, close));
    meanPrice := FirstIfSeries(Statistic(Average, sorted.rows, close));
  }

  /** Lines 142-167: what the chart of the sorted table shows. */
  method DrawChart(ticker: string, download: Download, sorted: Frame) returns (chart: Chart)
    requires Rectangular(|download.columns|, download.rows)
    requires sorted.columns == NormalizeAll(download.columns) && sorted.rows == SortRows(download.rows, true)
    ensures ChartOf(ticker, download, chart)
  {
    SortKeepsRectangular(|sorted.columns|, download.rows, true);
    var close := Positions(sorted.columns, CloseKey);
    var numPoints := |sorted.rows|;
    var markerSize := MarkerSize(numPoints);
    var lines := seq(|close|, k requires 0 <= k < |close| => Column(sorted.rows, close[k]));
    var ticks := Ticks(numPoints);
    TicksInRange(numPoints);
    var labels := TickLabels(Dates(sorted.rows), ticks);
    chart := Chart(Title(ticker), "Date", "Price (USD)", markerSize, lines, ticks, labels, 90, true);
  }

  /** The statistics computed on the sorted rows are those of the download. */
  lemma ReportedStatistics(d: Download)
    requires Rectangular(|d.columns|, d.rows) && |d.rows| > 0
    requires Positions(NormalizeAll(d.columns), CloseKey) != []
    ensures Rectangular(|d.columns|, SortRows(d.rows, true))
    ensures
      var sorted := SortRows(d.rows, true);
      var close := Positions(NormalizeAll(d.columns), CloseKey);
      StatisticsOf(d,
        FirstIfSeries(Statistic(Minimum, sorted, close)),
        FirstIfSeries(Statistic(Maximum, sorted, close)),
        FirstIfSeries(Statistic(Average, sorted, close)))
  {
    var sorted := SortRows(d.rows, true);
    var close := Positions(NormalizeAll(d.columns), CloseKey);
    SortKeepsRectangular(|d.columns|, d.rows, true);
    var j := FirstClose(d);
    assert close[0] == j;
    StatisticOfFirstColumn(Minimum, sorted, close);
    StatisticOfFirstColumn(Maximum, sorted, close);
    StatisticOfFirstColumn(Average, sorted, close);
    ColumnOfSort(d.rows, true, j);
    StatisticsIgnoreOrder(Column(sorted, j), Column(d.rows, j));
    MeanBetweenMinAndMax(Column(d.rows, j));
  }

  /** The table view built from the sorted rows has the promised shape, relative to the download. */
  lemma ReportedTable(d: Download, t: Frame)
    requires t.columns == NormalizeAll(d.columns)
    requires t.rows == TableRows(SortRows(d.rows, true))
    ensures TableOf(d, t)
  {
    var sorted := SortRows(d.rows, true);
    TablePrefix(sorted);
    TableKeepsNewest(sorted);
    if DistinctDates(d.rows) {
      SortKeepsDistinct(d.rows, true);
      TableStrictlyDescending(sorted);
    }
  }
}
