/** What the price chart shows (app.py, lines 142-167): the marker size,
    the x-axis tick positions and their date labels, and the title. The
    drawing itself is not modelled; the chart is described by a value. */
module PriceChart {
  import opened Text

  /** Marker size falls in four bands as the number of points grows. */
  function MarkerSize(numPoints: nat): (size: nat)
    ensures size in {6, 4, 2, 1}
  {
    if numPoints <= 20 then 6
    else if numPoints <= 50 then 4
    else if numPoints <= 100 then 2
    else 1
  }

  /** More points never give larger markers. */
  lemma MarkerSizeNonIncreasing(m: nat, n: nat)
    requires m <= n
    ensures MarkerSize(n) <= MarkerSize(m)
  {
  }

  /** The band table, and the largest markers exactly when every point gets its own tick. */
  lemma MarkerSizeBands(n: nat)
    ensures n <= 20 <==> MarkerSize(n) == 6
    ensures 20 < n <= 50 <==> MarkerSize(n) == 4
    ensures 50 < n <= 100 <==> MarkerSize(n) == 2
    ensures 100 < n <==> MarkerSize(n) == 1
    ensures MarkerSize(n) == 6 <==> |Ticks(n)| == n
  {
    TicksCount(n);
  }

  /** Python's `range(lo, hi, step)` for a positive step: every value
      `lo + k * step` below `hi`, and the next one would not be below `hi`. */
  function Range(lo: nat, hi: nat, step: nat): (r: seq<nat>)
    requires step > 0
    ensures forall k :: 0 <= k < |r| ==> r[k] == lo + k * step && r[k] < hi
    ensures lo < hi ==> |r| > 0 && lo + |r| * step >= hi
    ensures lo >= hi ==> r == []
    decreases hi - lo
  {
    if lo >= hi then []
    else
      var rest := Range(lo + step, hi, step);
      assert forall k :: 1 <= k <= |rest| ==> lo + step + (k - 1) * step == lo + k * step;
      assert lo + step + |rest| * step == lo + (|rest| + 1) * step;
      [lo] + rest
  }

  /** The spacing of the x-axis ticks: one per point up to 20 points,
      otherwise `num_points // 10`. */
  function TickStep(numPoints: nat): (step: nat)
    ensures numPoints <= 20 ==> step == 1
    ensures numPoints > 20 ==> step >= 2 && 10 * step <= numPoints < 10 * step + 10
  {
    if numPoints > 20 then numPoints / 10 else 1
  }

  /** The tick positions `ax.set_xticks(...)` receives. */
  function Ticks(numPoints: nat): (ticks: seq<nat>)
    ensures forall k :: 0 <= k < |ticks| ==> ticks[k] == k * TickStep(numPoints) < numPoints
    ensures |ticks| > 0 <==> numPoints > 0
  {
    Range(0, numPoints, TickStep(numPoints))
  }

  /** Up to 20 points, the ticks are exactly the positions 0 .. n-1. */
  lemma TicksForFewPoints(n: nat)
    requires n <= 20
    ensures |Ticks(n)| == n
    ensures forall i :: 0 <= i < n ==> Ticks(n)[i] == i
  {
    var t := Ticks(n);
    if n > 0 {
      assert n <= |t| * 1;
      assert (|t| - 1) * 1 < n by { assert t[|t| - 1] < n; }
    }
  }

  /** Above 20 points, the step is at least 2, the ticks start at 0, are spaced
      by the step, increase strictly and stay below n. */
  lemma TicksForManyPoints(n: nat)
    requires n > 20
    ensures TickStep(n) >= 2
    ensures |Ticks(n)| > 0 && Ticks(n)[0] == 0
    ensures forall k :: 0 <= k < |Ticks(n)| ==> Ticks(n)[k] == k * TickStep(n) < n
    ensures forall k, l :: 0 <= k < l < |Ticks(n)| ==> Ticks(n)[k] < Ticks(n)[l]
    ensures 10 <= |Ticks(n)| <= 15
  {
    var s := TickStep(n);
    var t := Ticks(n);
    var c := |t|;
    assert 10 * s <= n < 10 * s + 10;
    assert c * s >= n;
    assert (c - 1) * s < n by { assert t[c - 1] == (c - 1) * s; }
    forall k, l | 0 <= k < l < c
      ensures t[k] < t[l]
    {
      MulStrict(k, l, s);
    }
    MulCancel(9, c, s);
    MulCancel(c - 1, 15, s);
  }

  /** Multiplying by a positive factor keeps a strict order, so the order can be read back. */
  lemma MulCancel(a: nat, b: nat, c: nat)
    requires a * c < b * c
    ensures a < b
  {
    if a >= b {
      MulMono(b, a, c);
    }
  }

  lemma MulMono(a: nat, b: nat, c: nat)
    requires a <= b
    ensures a * c <= b * c
  {
    assert b * c == a * c + (b - a) * c;
  }

  lemma MulStrict(a: nat, b: nat, c: nat)
    requires a < b && c > 0
    ensures a * c < b * c
  {
    assert b * c == a * c + (b - a) * c;
    MulMono(1, b - a, c);
  }

  /** How many ticks there are: every point for n <= 20, 10 to 15 above. */
  lemma TicksCount(n: nat)
    ensures n <= 20 ==> |Ticks(n)| == n
    ensures n > 20 ==> 10 <= |Ticks(n)| <= 15
  {
    if n <= 20 { TicksForFewPoints(n); } else { TicksForManyPoints(n); }
  }

  /** The date label under each tick: one label per tick, the date of the
      point at that position. */
  function TickLabels(dates: seq<int>, ticks: seq<nat>): (labels: seq<int>)
    requires forall k :: 0 <= k < |ticks| ==> ticks[k] < |dates|
    ensures |labels| == |ticks|
    ensures forall k :: 0 <= k < |ticks| ==> labels[k] == dates[ticks[k]]
  {
    seq(|ticks|, k requires 0 <= k < |ticks| => dates[ticks[k]])
  }

  /** Every tick of an n-point chart is a position of one of its points. */
  lemma TicksInRange(n: nat)
    ensures forall k :: 0 <= k < |Ticks(n)| ==> Ticks(n)[k] < n
  {
  }

  /** With at most 20 points every date is a label, in order. */
  lemma LabelsForFewPoints(dates: seq<int>)
    requires |dates| <= 20
    ensures TickLabels(dates, Ticks(|dates|)) == dates
  {
    TicksForFewPoints(|dates|);
  }

  const Suffix: string := " Stock Price"

  /** `f'{ticker.upper()} Stock Price'`. */
  function Title(ticker: string): (t: string)
    ensures |t| == |ticker| + |Suffix|
    ensures t[..|ticker|] == Upper(ticker) && t[|ticker|..] == Suffix
  {
    Upper(ticker) + Suffix
  }

  /** The title does not depend on how the ticker was capitalised. */
  lemma TitleIgnoresCase(a: string, b: string)
    requires Lower(a) == Lower(b)
    ensures Title(a) == Title(b)
  {
    UpperIgnoresCase(a, b);
  }

  lemma AaplTitle()
    ensures Title("AAPL") == "AAPL Stock Price"
    ensures Title("aapl") == "AAPL Stock Price"
  {
    assert Upper("AAPL") == "AAPL";
    assert Upper("aapl") == "AAPL";
  }

  /** The chart as a value: title, axis labels, marker size, the plotted
      lines (one per selected `close` column, drawn against positions
      0 .. n-1), ticks, tick labels with their rotation, and the grid flag. */
  datatype Chart = Chart(
    title: string,
    xLabel: string,
    yLabel: string,
    markerSize: nat,
    lines: seq<seq<real>>,
    ticks: seq<nat>,
    tickLabels: seq<int>,
    labelRotation: int,
    grid: bool)
}
