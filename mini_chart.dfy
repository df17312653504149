/**
 * The `MiniChart` sparkline of the dashboard's first summary card
 * (src/components/Dashboard.jsx, lines 129-149): one bar per value, each bar as
 * tall as the value's position between the smallest and the largest value,
 * in percent of the chart's height.
 */
module MiniChart {

  /** `Math.max(...data)` for non-empty data. */
  function Max(data: seq<real>): (m: real)
    requires |data| > 0
    ensures m in data
    ensures forall i :: 0 <= i < |data| ==> data[i] <= m
  {
    if |data| == 1 then data[0]
    else
      var rest := Max(data[1..]);
      if data[0] >= rest then data[0] else rest
  }

  /** `Math.min(...data)` for non-empty data. */
  function Min(data: seq<real>): (m: real)
    requires |data| > 0
    ensures m in data
    ensures forall i :: 0 <= i < |data| ==> m <= data[i]
  {
    if |data| == 1 then data[0]
    else
      var rest := Min(data[1..]);
      if data[0] <= rest then data[0] else rest
  }

  /** All values are equal: the data has no range to scale over. */
  predicate IsConstant(data: seq<real>) {
    forall i, j :: 0 <= i < |data| && 0 <= j < |data| ==> data[i] == data[j]
  }

  /** The min-max formula of line 141, for a value between `lo` and a larger `hi`. */
  function Scale(v: real, lo: real, hi: real): real
    requires lo < hi
  {
    (v - lo) / (hi - lo) * 100.0
  }

  /** The intended height of one bar: its min-max position, or a full bar when there is no range. */
  function BarHeight(v: real, lo: real, hi: real): real
    requires lo <= hi
  {
    if lo == hi then 100.0 else Scale(v, lo, hi)
  }

  /**
   * The CSS height a bar receives. The source writes the number into a
   * percentage string; a division of zero by zero gives JavaScript's NaN,
   * which yields the string "NaN%".
   */
  datatype CssHeight = Percent(p: real) | NotANumber

  /**
   * The bar heights exactly as the source computes them. No bar is drawn for
   * empty data. When every value is equal, `range` is 0 and each bar's height
   * is (v - min) / 0 = 0 / 0, which is NaN.
   */
  function MiniChartHeights(data: seq<real>): (bars: seq<CssHeight>)
    ensures |bars| == |data|
  {
    if |data| == 0 then []
    else
      var hi, lo := Max(data), Min(data);
      seq(|data|, i requires 0 <= i < |data| => AsWrittenHeight(data[i], lo, hi))
  }

  /** One bar's height as line 141 writes it: `(value - min) / range * 100`, NaN when `range` is 0. */
  function AsWrittenHeight(v: real, lo: real, hi: real): CssHeight
  {
    var range := hi - lo;
    if range == 0.0 then NotANumber else Percent((v - lo) / range * 100.0)
  }

  /**
   * The bar heights as intended: min-max scaled percentages, and full-height
   * bars when the data has no range. This is the definition the rest of the
   * model uses.
   */
  function BarHeights(data: seq<real>): (heights: seq<real>)
    ensures |heights| == |data|
    ensures forall i :: 0 <= i < |data| ==> 0.0 <= heights[i] <= 100.0
    ensures IsConstant(data) ==> forall i :: 0 <= i < |data| ==> heights[i] == 100.0
  {
    if |data| == 0 then []
    else
      var lo, hi := Min(data), Max(data);
      ConstantIffMaxIsMin(data);
      forall i | 0 <= i < |data| ensures 0.0 <= BarHeight(data[i], lo, hi) <= 100.0 {
        if lo < hi { ScaleBounds(data[i], lo, hi); }
      }
      seq(|data|, i requires 0 <= i < |data| => BarHeight(data[i], lo, hi))
  }

  lemma DivBounds(x: real, d: real)
    requires 0.0 <= x <= d && d > 0.0
    ensures 0.0 <= x / d <= 1.0
  {
  }

  lemma ScaleBounds(v: real, lo: real, hi: real)
    requires lo <= v <= hi && lo < hi
    ensures 0.0 <= Scale(v, lo, hi) <= 100.0
  {
    DivBounds(v - lo, hi - lo);
  }

  lemma ScaleEnds(lo: real, hi: real)
    requires lo < hi
    ensures Scale(lo, lo, hi) == 0.0 && Scale(hi, lo, hi) == 100.0
  {
    assert (hi - lo) / (hi - lo) == 1.0;
  }

  lemma DivMonotone(x: real, y: real, d: real)
    requires d > 0.0
    ensures x <= y <==> x / d <= y / d
    ensures x < y <==> x / d < y / d
  {
  }

  lemma ScaleMonotone(v: real, w: real, lo: real, hi: real)
    requires lo < hi
    ensures v <= w <==> Scale(v, lo, hi) <= Scale(w, lo, hi)
    ensures v < w <==> Scale(v, lo, hi) < Scale(w, lo, hi)
  {
  }

  /** The largest value equals the smallest exactly when the data is constant. */
  lemma ConstantIffMaxIsMin(data: seq<real>)
    requires |data| > 0
    ensures IsConstant(data) <==> Max(data) == Min(data)
  {
  }

  /** Each bar is its own value's height, with min and max taken over the whole sequence, in input order. */
  lemma BarHeightsAt(data: seq<real>, i: nat)
    requires i < |data|
    ensures Min(data) <= Max(data)
    ensures BarHeights(data)[i] == BarHeight(data[i], Min(data), Max(data))
    ensures !IsConstant(data) ==> Min(data) < Max(data) && BarHeights(data)[i] == Scale(data[i], Min(data), Max(data))
  {
  }

  /** A bar holding the smallest value of varied data is empty. */
  lemma MinimumGetsZero(data: seq<real>, i: nat)
    requires i < |data| && !IsConstant(data)
    requires forall j :: 0 <= j < |data| ==> data[i] <= data[j]
    ensures BarHeights(data)[i] == 0.0
  {
    BarHeightsAt(data, i);
    assert data[i] == Min(data);
    ScaleEnds(Min(data), Max(data));
  }

  /** A bar holding the largest value is full, for varied and constant data alike. */
  lemma MaximumGetsFull(data: seq<real>, i: nat)
    requires i < |data|
    requires forall j :: 0 <= j < |data| ==> data[j] <= data[i]
    ensures BarHeights(data)[i] == 100.0
  {
    BarHeightsAt(data, i);
    assert data[i] == Max(data);
    if Min(data) < Max(data) {
      ScaleEnds(Min(data), Max(data));
    }
  }

  /** Scaling keeps the order of the values, in both directions, for varied data. */
  lemma BarHeightsPreserveOrder(data: seq<real>, i: nat, j: nat)
    requires i < |data| && j < |data| && !IsConstant(data)
    ensures data[i] <= data[j] <==> BarHeights(data)[i] <= BarHeights(data)[j]
    ensures data[i] < data[j] <==> BarHeights(data)[i] < BarHeights(data)[j]
  {
    BarHeightsAt(data, i);
    BarHeightsAt(data, j);
    ScaleMonotone(data[i], data[j], Min(data), Max(data));
  }

  /** As written, varied data gets exactly the intended heights. */
  lemma MiniChartMatchesWhenVaried(data: seq<real>, i: nat)
    requires i < |data| && !IsConstant(data)
    ensures MiniChartHeights(data)[i] == Percent(BarHeights(data)[i])
  {
  }

  /** As written, constant non-empty data gets a NaN height on every bar. */
  lemma MiniChartConstantIsNaN(data: seq<real>, i: nat)
    requires i < |data| && IsConstant(data)
    ensures MiniChartHeights(data)[i] == NotANumber
    ensures BarHeights(data)[i] == 100.0
  {
  }

  /** A one-value sparkline, the smallest input that shows the division by zero. */
  lemma SingleValueCounterexample()
    ensures MiniChartHeights([42.0]) == [NotANumber]
    ensures BarHeights([42.0]) == [100.0]
  {
  }
}
