# Stock price report: a Dafny model of the `/plot` pipeline

This project models the report pipeline behind the `/plot` request of the Flask
stock viewer (`app.py`, lines 110-196). The market-data download is an input to
the model. The pipeline does the following:

1. **Normalises the column names.** A plain name is lower-cased. A multi-level
   identifier such as `('Close', 'AAPL')` is replaced by its lower-cased first
   part. This is a loop, modelled as a method.
2. **Stops on an empty table.** `DataFrame.empty` is true when there are no
   rows *or* no columns; either way the request ends on the "no data" page.
3. **Sorts the rows by date, ascending.**
4. **Computes the minimum, maximum and mean of `close`.** When several columns
   normalise to `close`, the library returns one value per column and the
   handler keeps the first. When no column is called `close`, the selection
   raises a `KeyError` and the handler does not catch it. The model has an
   outcome for that case.
5. **Describes the chart.** It has a title `TICKER Stock Price`, fixed axis
   labels, a marker size that falls in four bands, and x-axis ticks:
   - at most 20 points: one tick per point;
   - otherwise: a tick every `n // 10` points, each with the date of that point.
6. **Builds the table view.** The rows are re-sorted newest first and cut to
   the 20 most recent.

The modules follow the pipeline:

- `Text`: ASCII case mapping.
- `Columns`: name normalisation and the positions of `close`.
- `Series`: rows, frames and the sort.
- `Statistics`: min, max, mean and the "first if a series" rule.
- `PriceChart`: marker size, ticks, labels and title.
- `Table`: the table view.
- `ReportBuilder`: the request handler `Plot` and its steps.
- `ReportExamples`: the three requests the repository's tests make.

The download is modelled as column identifiers plus rows. Each row has an
integer date (the index) and one real value per column.

`ReportBuilder.Plot` states the whole outcome:

- the error page exactly when the table is empty;
- a raised `KeyError("close")` exactly when the table is not empty and no column
  normalises to `close`;
- otherwise a report. Its statistics are those of the first `close` column over
  the downloaded rows, in the order `min <= mean <= max`. Its chart is as
  described above. Its table is the newest `min(20, n)` rows in descending date
  order, and no row left out is newer than a row kept.

Above 20 points the code places a tick every `n // 10` points
(`range(0, num_points, step)`), which gives between 10 and 15 ticks. For example,
29 points give step 2 and 15 ticks. `PriceChart.TicksForManyPoints` proves the range.

## Model

| member | source | states |
|---|---|---|
| Text.Lower | app.py:123-125 | `str.lower` on ASCII: same length, each letter mapped down, no upper-case ASCII letter left |
| Text.Upper | app.py:153 | `str.upper` on ASCII: same length, each letter mapped up, no lower-case ASCII letter left |
| Text.LowerIdempotent | app.py:123-125 | lower-casing a lower-cased name changes nothing |
| Text.UpperIgnoresCase | app.py:153 | two strings that agree after lower-casing agree after upper-casing |
| Columns.NormalizedName | app.py:122-125 | a multi-level identifier becomes its lower-cased first part, a plain name its lower-cased self; the result has no upper-case ASCII letter |
| Columns.NormalizeAll | app.py:120-126 | one normalised name per column, in column order |
| Columns.NormalizeColumns | app.py:120-126 | the loop builds exactly one name per column: `col[0].lower()` for a tuple, `col.lower()` otherwise |
| Columns.NormalizeIdempotent | app.py:120-126 | normalising already-normalised names changes nothing |
| Columns.PositionsFrom | app.py:134 | the positions from `from` on whose name is the key: in range, strictly increasing, and every such position is listed |
| Columns.Positions | app.py:134 | the columns `data['close']` selects: exactly the positions named `close`, in order; none exactly when no name is `close` |
| Columns.FirstPositionIsLeftmost | app.py:135 | the first selected column is the leftmost one named `close` |
| Series.IsEmpty | app.py:128 | `data.empty`: true exactly when the table holds no cell, that is, when it has no rows or no columns |
| Series.Column | app.py:134 | the values of one column, one per row, in row order |
| Series.Dates | app.py:164-167 | the index dates, one per row, in row order |
| Series.Insert | app.py:131 | insertion adds exactly one copy of the row |
| Series.InsertBounded | app.py:131 | inserting keeps a common lower bound on the dates |
| Series.InsertSorted | app.py:131 | inserting into a sorted table keeps it sorted |
| Series.SortRows | app.py:131 | `sort_index`: sorted in the requested direction and a permutation of the rows |
| Series.SortSortedIsIdentity | app.py:131 | sorting an already sorted table returns it unchanged |
| Series.SortIdempotent | app.py:131 | sorting twice is sorting once |
| Series.SameRows | app.py:131 | a permutation has the same rows |
| Series.InsertKeepsDistinct | app.py:131 | inserting a row with a new date keeps the dates distinct |
| Series.SortKeepsDistinct | app.py:131 | sorting keeps the dates distinct |
| Series.SortedDistinctIsStrict | app.py:131 | sorted with distinct dates means strictly ordered |
| Series.SortKeepsRectangular | app.py:131 | sorting keeps one cell per column in every row |
| Statistics.Min | app.py:134 | the minimum occurs in the column and is at most every value |
| Statistics.Max | app.py:136 | the maximum occurs in the column and is at least every value |
| Statistics.Mean | app.py:138 | `.mean()` on exact reals: the count times the mean is the sum |
| Statistics.SumBetween | app.py:138 | values within [lo, hi] sum to between n·lo and n·hi |
| Statistics.MeanBetween | app.py:138 | the mean of values within [lo, hi] is within [lo, hi] |
| Statistics.MeanBetweenMinAndMax | app.py:134-139 | min <= mean <= max for every non-empty column |
| Statistics.QuotientBetween | app.py:138 | dividing by the count keeps the bounds |
| Statistics.SumConcat | app.py:138 | the sum of a concatenation is the sum of the sums |
| Statistics.SumRemove | app.py:138 | taking one value out of a column takes it out of the sum |
| Statistics.MultisetRemove | app.py:138 | taking one value out of a column takes one copy out of its multiset |
| Statistics.PositionOf | app.py:138 | every value of the multiset occurs at some position |
| Statistics.RemoveMatching | app.py:138 | removing matching values from two permutations leaves permutations |
| Statistics.SumPermutation | app.py:138 | the sum does not depend on the order of the values |
| Statistics.StatisticsIgnoreOrder | app.py:131-139 | min, max and mean are the same for any reordering of the rows |
| Statistics.InsertKeepsColumn | app.py:131 | inserting keeps column `j` present in every row |
| Statistics.ColumnCons | app.py:134 | the column of a row put in front is that row's value in front |
| Statistics.ColumnOfInsert | app.py:131-134 | inserting a row adds exactly its value to the column's multiset |
| Statistics.SortKeepsColumn | app.py:131 | sorting keeps column `j` present in every row |
| Statistics.ColumnOfSort | app.py:131-134 | after the sort, the `close` column holds the same values |
| Statistics.Statistic | app.py:134-138 | a single value exactly when one column is selected, that column's aggregate; otherwise a series with each selected column's aggregate, in order |
| Statistics.FirstIfSeries | app.py:135-139 | the first entry when the statistic is a series, the value itself when it is a single value |
| Statistics.StatisticOfFirstColumn | app.py:134-139 | `iloc[0]` of a series, or the single value, is the statistic of the first selected column |
| Statistics.ReportedPricesOrdered | app.py:134-139 | the reported minimum <= mean <= maximum |
| Statistics.ThreeBarStatistics | tests/test_app.py:109-126 | closes 152, 153, 154 give min 152, max 154, mean 153 |
| PriceChart.MarkerSize | app.py:143-151 | the marker size is one of 6, 4, 2, 1 |
| PriceChart.MarkerSizeNonIncreasing | app.py:143-151 | more points never give larger markers |
| PriceChart.MarkerSizeBands | app.py:143-151 | the four bands as iff statements, and the largest markers exactly when every point has its own tick |
| PriceChart.TickStep | app.py:161-162 | step 1 up to 20 points; above, `n // 10`: at least 2, with `10·step <= n < 10·step + 10` |
| PriceChart.Ticks | app.py:161-166 | the positions given to `set_xticks`: tick k is `k·step` and below n; there are ticks exactly when there are points |
| PriceChart.Range | app.py:163 | `range(lo, hi, step)`: every `lo + k·step` below `hi` and no more |
| PriceChart.TicksForFewPoints | app.py:165-166 | up to 20 points the ticks are exactly 0 .. n-1 |
| PriceChart.TicksForManyPoints | app.py:161-163 | above 20 points: step >= 2, first tick 0, ticks k·step below n and strictly increasing, 10 to 15 of them |
| PriceChart.TicksCount | app.py:161-166 | n ticks up to 20 points, 10 to 15 above |
| PriceChart.TickLabels | app.py:164-167 | one label per tick, the date of the point at that tick |
| PriceChart.TicksInRange | app.py:163-166 | every tick is the position of a point |
| PriceChart.LabelsForFewPoints | app.py:167 | up to 20 points every date is a label, in order |
| PriceChart.Title | app.py:153 | the title is the upper-cased ticker followed by ` Stock Price` |
| PriceChart.TitleIgnoresCase | app.py:153 | the title does not depend on how the ticker was capitalised |
| PriceChart.AaplTitle | tests/test_app.py:123 | `AAPL` and `aapl` both give `AAPL Stock Price` |
| Table.TableRows | app.py:178-180 | the table view: `min(20, n)` rows in newest-first order |
| Table.TableView | app.py:178-180 | `min(20, n)` rows, newest first, taken from the input, none left out newer than one kept; equal to `TableRows` |
| Table.TablePrefix | app.py:178-180 | the table is the front of the descending sort; with the rest it makes up all rows |
| Table.PrefixSorted | app.py:180 | a prefix of a sorted table is sorted |
| Table.SplitMultiset | app.py:180 | the head and the rest together hold every row once |
| Table.BackNoNewerThanFront | app.py:178-180 | in a newest-first table every later row is no newer than every earlier one |
| Table.TableKeepsNewest | app.py:178-180 | every row left out of the table is no newer than every row in it |
| Table.TableStrictlyDescending | app.py:178 | without repeated dates the table is strictly newest first |
| Table.TableHasNewest | app.py:178-180 | without repeated dates the newest row heads the table |
| Table.TableDropsOldest | app.py:179-180 | with distinct dates and more than 20 rows, the oldest row is not in the table |
| Table.ConsecutiveDaysTable | app.py:178-180 | more than 20 consecutive days: 20 rows, the last day first, the first day absent |
| ReportBuilder.FirstClose | app.py:134-135 | the first `close` column is the leftmost column named `close` |
| ReportBuilder.Plot | app.py:110-196 | error page iff the table is empty; `KeyError("close")` iff non-empty and no `close` column; otherwise the report's statistics, chart and table as above |
| ReportBuilder.BuildReport | app.py:131-196 | the report of a non-empty table with a `close` column: ticker, statistics, chart and table |
| ReportBuilder.ComputeStatistics | app.py:133-139 | the statistics computed on the sorted table are min, max and mean of the download's first `close` column |
| ReportBuilder.DrawChart | app.py:141-167 | title, axis labels, grid, rotation 90, marker band, one line per `close` column holding its values in date order, and ticks with their dates |
| ReportBuilder.ReportedStatistics | app.py:131-139 | sorting before the statistics changes none of them |
| ReportBuilder.ReportedTable | app.py:178-180 | the table built from the sorted rows has every promised property relative to the download |
| ReportExamples.PriceColumnNames | tests/test_app.py:105-111 | the test's columns normalise to themselves; `close` is column 3 and only it |
| ReportExamples.CompositeCloseColumn | app.py:122-123 | `('Close', 'AAPL')` normalises to `close` |
| ReportExamples.ThreeBarPrices | tests/test_app.py:124-126 | the three-bar download reports min 152, max 154, mean 153 |
| ReportExamples.ThreeBarTable | app.py:178-180 | the three-bar table has three rows, strictly newest first |
| ReportExamples.ThreeBarRequest | tests/test_app.py:98-128 | the three-bar request gives a report with those prices, title `AAPL Stock Price` and a three-row table |
| ReportExamples.ConsecutiveDaysSorted | app.py:131 | consecutive days are already in order, so the table is that of the download itself |
| ReportExamples.ManyBarTableRows | tests/test_app.py:155-157 | more than 20 days from day 1: 20 rows, the last day on top, day 1 absent |
| ReportExamples.ManyBarTable | tests/test_app.py:155-157 | the same, for the table of a report |
| ReportExamples.LongRangeRequest | tests/test_app.py:130-157 | a request over more than 20 days (30 in the test) shows 20 rows, the last day on top, day 1 absent |
| ReportExamples.NoDataRequest | tests/test_app.py:159-177 | an empty download ends on the error page |

## Left out

- Authentication (`@login_required`), the form fields and Flask routing. The ticker is a parameter of `Plot`.
- The market-data download (`yf.download`, line 118). The returned table is an input to `Plot`, and the dates `start_date`/`end_date` do not appear in the model.
- Drawing, PNG encoding and base64 embedding of the chart (lines 142, 168-176). The chart is described by a `Chart` value instead.
- HTML rendering: the templates, `to_html` and its formatters (two decimals for prices, thousands separators for volume), and the two-decimal formatting of the statistics (lines 182-196). The report holds the unformatted values.
- Date formatting (`strftime('%Y-%m-%d')`). Dates are integer keys and labels are the dates themselves.
- Floating point. Prices are mathematical reals, so rounding, NaN and summation order are not modelled. `Statistics.Mean` is the exact sum divided by the count.
- Text.Lower: maps only ASCII letters, while Python's `str.lower` is Unicode-aware.
- Text.Upper: maps only ASCII letters, while Python's `str.upper` is Unicode-aware.
- Series.SortRows: is a stable insertion sort, while pandas leaves the order of rows with equal dates unspecified. Two contracts depend on that order: the table's equation with `TableRows`, and the chart's `LinesOf`, which fixes each line as the column of `SortRows(d.rows, true)`. The table's other contracts hold for any order of ties.
- Columns.NormalizeColumns: every label, and every first level of a composite label, is a string (`Columns.ColumnId`). A non-string label, such as an integer column name, makes `.lower()` raise `AttributeError`, which the handler does not catch; that error path is not modelled.
- The in-place assignment `data.columns = new_columns` (line 126). The model builds a new `Frame` value, so aliasing of the downloaded table is not captured.
- The sort on line 131 happens before `data['close']` raises. The model returns the `KeyError` outcome without sorting, because the sort has no observable effect on that path.
- The database setup (`init-db`), the other routes and `test_create.py` are not part of this model.
