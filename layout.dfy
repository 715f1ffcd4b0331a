/**
 * The layout arithmetic that all three revisions of the bar-chart builder share word for word:
 * the y-axis maximum and scale, the category labels, the plot bounds, the tick offsets and the
 * bar size. The y-scale divisor is a parameter because the revisions disagree on it.
 */
module Layout {
  import opened Outcomes
  import opened Numerics
  import opened Sequences
  import opened Graphs
  import opened Svg

  /** The fixed inset of the plot from every canvas edge, in pixels. */
  const Margin: int := 100

  /** The y values of the data, in order. */
  function Ys(data: seq<GraphDatum>): (ys: seq<real>)
    ensures |ys| == |data|
    ensures forall i :: 0 <= i < |data| ==> ys[i] == data[i].y
  {
    seq(|data|, i requires 0 <= i < |data| => data[i].y)
  }

  /** FindMaxYScale: the largest y rounded up to a whole number (the data must be non-empty for Max). */
  function FindMaxYScale(data: seq<GraphDatum>): (max: real)
    requires |data| > 0
    ensures max == max.Floor as real
    ensures forall i :: 0 <= i < |data| ==> data[i].y <= max
    ensures exists i :: 0 <= i < |data| && max - 1.0 < data[i].y
  {
    var ys := Ys(data);
    var top := MaxOf(ys);
    assert exists i :: 0 <= i < |ys| && ys[i] == top;
    assert forall i :: 0 <= i < |data| ==> ys[i] in ys;
    Ceiling(top) as real
  }

  /** CalculateYScaleInterval: scaleCount intervals exactly cover the range from 0 to max. */
  function CalculateYScaleInterval(max: real, scaleCount: nat): (interval: real)
    requires scaleCount > 0
    ensures interval * scaleCount as real == max
    ensures (0.0 < max <==> 0.0 < interval) && (max < 0.0 <==> interval < 0.0)
  {
    max / scaleCount as real
  }

  /**
   * The y-scale the accumulation loop produces over exact reals: 0, interval, 2 * interval, ...
   * up to max. At max == 0 the loop never ends, so that case has no scale.
   */
  function YScale(max: real, scaleCount: nat): seq<real>
    requires scaleCount > 0 && max != 0.0
  {
    if max < 0.0 then []
    else
      var interval := CalculateYScaleInterval(max, scaleCount);
      seq(scaleCount + 1, i requires 0 <= i <= scaleCount => i as real * interval)
  }

  /**
   * CaclculateYAxis: the loop `for (i = 0; i <= max; i += interval) yAxis.Add(i)` run over exact
   * reals. Max of an empty sequence throws.
   */
  method CaclculateYAxis(data: seq<GraphDatum>, scaleCount: nat) returns (r: Result<seq<real>>)
    requires scaleCount > 0
    requires data == [] || FindMaxYScale(data) != 0.0
    ensures data == [] ==> r == Err(InvalidOperation)
    ensures data != [] ==> r == Ok(YScale(FindMaxYScale(data), scaleCount))
  {
    if data == [] {
      return Err(InvalidOperation);
    }
    var max := FindMaxYScale(data);
    var interval := CalculateYScaleInterval(max, scaleCount);
    var yAxis: seq<real> := [];
    var i := 0.0;
    while i <= max
      invariant |yAxis| <= scaleCount + 1
      invariant max < 0.0 ==> yAxis == []
      invariant i == |yAxis| as real * interval
      invariant forall j :: 0 <= j < |yAxis| ==> yAxis[j] == j as real * interval
      decreases scaleCount + 1 - |yAxis|
    {
      if |yAxis| == scaleCount + 1 {
        MulStrict(scaleCount as real, |yAxis| as real, interval);
        assert false;
      }
      yAxis := yAxis + [i];
      i := i + interval;
    }
    if max > 0.0 && |yAxis| < scaleCount + 1 {
      MulMono(|yAxis| as real, scaleCount as real, interval);
      assert false;
    }
    if max > 0.0 {
      var spec := YScale(max, scaleCount);
      assert |yAxis| == |spec|;
      assert forall j :: 0 <= j < |yAxis| ==> yAxis[j] == spec[j];
      assert yAxis == spec;
    }
    r := Ok(yAxis);
  }

  /** The y-scale for a positive maximum: scaleCount + 1 evenly spaced, increasing points from 0 to max. */
  lemma YScaleShape(max: real, scaleCount: nat)
    requires scaleCount > 0 && max > 0.0
    ensures var s := YScale(max, scaleCount);
      && |s| == scaleCount + 1
      && s[0] == 0.0 && s[scaleCount] == max
      && (forall i :: 0 < i < |s| ==> s[i] - s[i - 1] == max / scaleCount as real)
      && (forall i, j :: 0 <= i < j < |s| ==> s[i] < s[j])
      && (forall i :: 0 <= i < |s| ==> 0.0 <= s[i] <= max)
  {
    var s := YScale(max, scaleCount);
    var interval := CalculateYScaleInterval(max, scaleCount);
    forall i, j | 0 <= i < j < |s| ensures s[i] < s[j] {
      MulStrict(i as real, j as real, interval);
    }
    forall i | 0 <= i < |s| ensures 0.0 <= s[i] <= max {
      MulMono(0.0, i as real, interval);
      MulMono(i as real, scaleCount as real, interval);
    }
  }

  /**
   * The y-scale is exactly what "accumulate while not above max" keeps: the k-th multiple of the
   * interval is on the scale iff it does not exceed max.
   */
  lemma YScaleKeepsMultiplesUpToMax(max: real, scaleCount: nat, k: nat)
    requires scaleCount > 0 && max > 0.0
    ensures var s := YScale(max, scaleCount);
      var interval := CalculateYScaleInterval(max, scaleCount);
      (k < |s| <==> k as real * interval <= max) && (k < |s| ==> s[k] == k as real * interval)
  {
    var interval := CalculateYScaleInterval(max, scaleCount);
    if k <= scaleCount {
      MulMono(k as real, scaleCount as real, interval);
    } else {
      MulStrict(scaleCount as real, k as real, interval);
    }
  }

  /** The largest y-scale point is the maximum itself, as DrawBars reads it back with Max. */
  lemma YScaleMax(max: real, scaleCount: nat)
    requires scaleCount > 0 && max > 0.0
    ensures |YScale(max, scaleCount)| > 0 && MaxOf(YScale(max, scaleCount)) == max
  {
    YScaleShape(max, scaleCount);
    var s := YScale(max, scaleCount);
    assert s[scaleCount] in s;
  }

  /** CalculateXAxis: one label per datum, in input order, neither deduplicated nor sorted. */
  function CalculateXAxis(data: seq<GraphDatum>): (labels: seq<string>)
    ensures |labels| == |data|
    ensures forall i :: 0 <= i < |data| ==> labels[i] == data[i].x
  {
    seq(|data|, i requires 0 <= i < |data| => data[i].x)
  }

  /** The axes data of a non-empty data set for a given y divisor. */
  function AxesOf(data: seq<GraphDatum>, scaleCount: nat): (axes: AxesData)
    requires scaleCount > 0 && data != [] && FindMaxYScale(data) != 0.0
  {
    AxesData(CalculateXAxis(data), YScale(FindMaxYScale(data), scaleCount))
  }

  /**
   * CalculateAxesData: the category labels and the y-scale with the revision's divisor; Max of
   * no data throws.
   */
  method CalculateAxesData(graphData: seq<GraphDatum>, scaleCount: nat) returns (r: Result<AxesData>)
    requires scaleCount > 0
    requires graphData == [] || FindMaxYScale(graphData) != 0.0
    ensures graphData == [] ==> r == Err(InvalidOperation)
    ensures graphData != [] ==> r == Ok(AxesOf(graphData, scaleCount))
  {
    var yAxis := CaclculateYAxis(graphData, scaleCount);
    if yAxis.Err? {
      return Err(yAxis.error);
    }
    var xAxis := CalculateXAxis(graphData);
    r := Ok(AxesData(xAxis, yAxis.value));
  }

  /** CalculateGraphBounds: the plot rectangle sits Margin pixels inside each edge of the canvas. */
  function CalculateGraphBounds(width: int, height: int): (b: GraphBounds)
    ensures b.originX == Margin as real
    ensures width as real - (b.originX + b.width) == Margin as real
    ensures height as real - b.originY == Margin as real
    ensures b.originY - b.height == Margin as real
  {
    GraphBounds(
      originX := Margin as real,
      originY := (height - Margin) as real,
      width := (width - 2 * Margin) as real,
      height := (height - 2 * Margin) as real)
  }

  /** The category ticks: the width cut into n + 1 equal sections, one tick between each two sections. */
  function XOffsets(n: nat, width: real): seq<real>
  {
    var sectionLength := width / (n + 1) as real;
    seq(n, i requires 0 <= i < n => (i + 1) as real * sectionLength)
  }

  /** CalculateXAxisGraphicalData: the loop over i = 1 .. n appending i * sectionLength. */
  method CalculateXAxisGraphicalData(axesData: AxesData, bounds: GraphBounds) returns (xScale: seq<real>)
    ensures xScale == XOffsets(|axesData.xAxisPoints|, bounds.width)
  {
    var xSectionCount := |axesData.xAxisPoints| + 1;
    var xSectionLength := bounds.width / xSectionCount as real;
    xScale := [];
    var i := 1;
    while i < xSectionCount
      invariant 1 <= i <= xSectionCount
      invariant |xScale| == i - 1
      invariant forall j :: 0 <= j < |xScale| ==> xScale[j] == (j + 1) as real * xSectionLength
    {
      xScale := xScale + [i as real * xSectionLength];
      i := i + 1;
    }
    var spec := XOffsets(|axesData.xAxisPoints|, bounds.width);
    assert |xScale| == |spec|;
    assert forall j :: 0 <= j < |xScale| ==> xScale[j] == spec[j];
  }

  /**
   * For a positive width, the n ticks increase strictly, lie strictly inside the axis, are one
   * section apart and leave the same gap at both ends.
   */
  lemma XOffsetsShape(n: nat, width: real)
    requires width > 0.0
    ensures var s := XOffsets(n, width);
      && |s| == n
      && (forall i, j :: 0 <= i < j < n ==> s[i] < s[j])
      && (forall i :: 0 <= i < n ==> 0.0 < s[i] < width)
      && (forall i :: 0 < i < n ==> s[i] - s[i - 1] == width / (n + 1) as real)
      && (n > 0 ==> s[0] == width - s[n - 1])
  {
    var s := XOffsets(n, width);
    var len := width / (n + 1) as real;
    SectionLength(n + 1, width);
    forall i, j | 0 <= i < j < n ensures s[i] < s[j] {
      MulStrict((i + 1) as real, (j + 1) as real, len);
    }
    forall i | 0 <= i < n ensures 0.0 < s[i] < width {
      XOffsetInside(n, width, i);
    }
  }

  lemma XOffsetInside(n: nat, width: real, i: nat)
    requires width > 0.0 && i < n
    ensures 0.0 < XOffsets(n, width)[i] < width
  {
    var len := width / (n + 1) as real;
    SectionLength(n + 1, width);
    assert XOffsets(n, width)[i] == (i + 1) as real * len;
    MulStrict(0.0, (i + 1) as real, len);
    MulStrict((i + 1) as real, (n + 1) as real, len);
  }

  /** Cutting a positive length into k sections gives sections of positive length that add back up. */
  lemma SectionLength(k: nat, total: real)
    requires k > 0 && total > 0.0
    ensures total / k as real > 0.0 && k as real * (total / k as real) == total
  {
  }

  /** The y ticks: the height cut into m - 1 equal sections, one tick at each section boundary. */
  function YOffsets(m: nat, height: real): seq<real>
    requires m != 1
  {
    var sectionLength := height / (m - 1) as real;
    seq(m, i requires 0 <= i < m => i as real * sectionLength)
  }

  /**
   * CalculateYAxisGraphicalData: the loop over i = 0 .. m - 1 appending i * sectionLength. With one
   * scale point the section length divides by zero.
   */
  method CalculateYAxisGraphicalData(axesData: AxesData, bounds: GraphBounds) returns (yScale: seq<real>)
    requires |axesData.yAxisPoints| != 1
    ensures yScale == YOffsets(|axesData.yAxisPoints|, bounds.height)
  {
    var ySectionCount := |axesData.yAxisPoints|;
    var ySectionLength := bounds.height / (ySectionCount - 1) as real;
    yScale := [];
    var i := 0;
    while i < ySectionCount
      invariant 0 <= i <= ySectionCount
      invariant |yScale| == i
      invariant forall j :: 0 <= j < i ==> yScale[j] == j as real * ySectionLength
    {
      yScale := yScale + [i as real * ySectionLength];
      i := i + 1;
    }
    var spec := YOffsets(|axesData.yAxisPoints|, bounds.height);
    assert |yScale| == |spec|;
    assert forall j :: 0 <= j < |yScale| ==> yScale[j] == spec[j];
  }

  /**
   * For m >= 2 points, the y ticks start at the x-axis, end at the top of the plot and are evenly
   * spaced; for a positive height they increase strictly.
   */
  lemma YOffsetsShape(m: nat, height: real)
    requires m >= 2
    ensures var s := YOffsets(m, height);
      && |s| == m
      && s[0] == 0.0 && s[m - 1] == height
      && (forall i :: 0 < i < m ==> s[i] - s[i - 1] == height / (m - 1) as real)
      && (height > 0.0 ==> forall i, j :: 0 <= i < j < m ==> s[i] < s[j])
  {
    var s := YOffsets(m, height);
    var len := height / (m - 1) as real;
    assert (m - 1) as real * len == height;
    if height > 0.0 {
      forall i, j | 0 <= i < j < m ensures s[i] < s[j] {
        MulStrict(i as real, j as real, len);
      }
    }
  }

  /** CalculateAxesGraphicalData: the category tick offsets and the y tick offsets of the plot. */
  method CalculateAxesGraphicalData(axesData: AxesData, graphBounds: GraphBounds) returns (axesGraphicalData: AxesGraphicalData)
    requires |axesData.yAxisPoints| != 1
    ensures axesGraphicalData.xScale == XOffsets(|axesData.xAxisPoints|, graphBounds.width)
    ensures axesGraphicalData.yScale == YOffsets(|axesData.yAxisPoints|, graphBounds.height)
  {
    var xScale := CalculateXAxisGraphicalData(axesData, graphBounds);
    var yScale := CalculateYAxisGraphicalData(axesData, graphBounds);
    axesGraphicalData := AxesGraphicalData(xScale, yScale);
  }

  /** The bar width: the first tick offset cast to int, halved with integer division. */
  function BarWidth(firstOffset: real): (w: int)
    ensures 0.0 <= firstOffset ==> 0 <= w && 2.0 * w as real <= firstOffset < 2.0 * w as real + 2.0
  {
    TruncDiv(Trunc(firstOffset), 2)
  }

  /** The pixel height of a value's share of yMax on a plot of the given height, before rounding. */
  function ScaledHeight(value: real, yMax: real, height: real): real
    requires yMax != 0.0
  {
    value / yMax * height
  }

  /** CalculateBarHeight: the value's share of yMax, scaled to the plot height and rounded. */
  function CalculateBarHeight(bounds: GraphBounds, yMax: real, value: real): (h: int)
    requires yMax != 0.0
    ensures ScaledHeight(value, yMax, bounds.height) - 0.5 <= h as real <= ScaledHeight(value, yMax, bounds.height) + 0.5
  {
    RoundHalfEven(ScaledHeight(value, yMax, bounds.height))
  }

  /** A zero value gives no bar, and the value yMax a bar of the full (whole-pixel) plot height. */
  lemma BarHeightEnds(bounds: GraphBounds, yMax: real)
    requires yMax != 0.0 && bounds.height == bounds.height.Floor as real
    ensures CalculateBarHeight(bounds, yMax, 0.0) == 0
    ensures CalculateBarHeight(bounds, yMax, yMax) as real == bounds.height
  {
    RoundOfInteger(0);
    assert ScaledHeight(yMax, yMax, bounds.height) == bounds.height;
    RoundOfInteger(bounds.height.Floor);
  }

  /** A larger value never gets a shorter bar. */
  lemma BarHeightMonotone(bounds: GraphBounds, yMax: real, v1: real, v2: real)
    requires yMax > 0.0 && bounds.height >= 0.0 && v1 <= v2
    ensures CalculateBarHeight(bounds, yMax, v1) <= CalculateBarHeight(bounds, yMax, v2)
  {
    ScaledMono(v1, v2, yMax, bounds.height);
    RoundMonotone(ScaledHeight(v1, yMax, bounds.height), ScaledHeight(v2, yMax, bounds.height));
  }

  lemma ScaledMono(v1: real, v2: real, yMax: real, height: real)
    requires yMax > 0.0 && height >= 0.0 && v1 <= v2
    ensures ScaledHeight(v1, yMax, height) <= ScaledHeight(v2, yMax, height)
  {
    assert v1 / yMax <= v2 / yMax;
    MulMono(v1 / yMax, v2 / yMax, height);
  }

  /** Rounding can give two different values the same bar: the order is weak, not strict. */
  lemma BarHeightNotStrict()
    ensures var bounds := CalculateGraphBounds(1000, 1000);
      CalculateBarHeight(bounds, 3.0, 1.0) == CalculateBarHeight(bounds, 3.0, 1.001) == 267
  {
  }

  // ---- shared pieces of the drawing ----

  /** The x-axis: along the bottom of the plot, from the origin to the right edge. */
  function XAxisLine(bounds: GraphBounds): Element
  {
    Line(Point(bounds.originX, bounds.originY), Point(bounds.originX + bounds.width, bounds.originY), Black)
  }

  /** The y-axis: up the left of the plot, from the origin to the top edge. */
  function YAxisLine(bounds: GraphBounds): Element
  {
    Line(Point(bounds.originX, bounds.originY), Point(bounds.originX, bounds.originY - bounds.height), Black)
  }

  /** What DrawBars relies on: each x tick has a datum, and the largest y tick is not zero. */
  ghost predicate BarsDrawable(graphData: seq<GraphDatum>, axesData: AxesData, axesGraphicalData: AxesGraphicalData)
  {
    && |axesGraphicalData.xScale| <= |graphData|
    && (|axesData.yAxisPoints| > 0 ==> MaxOf(axesData.yAxisPoints) != 0.0)
  }

  /** What BuildGraphImage relies on, and what CalculateAxesData always hands it. */
  ghost predicate ImageBuildable(graphData: seq<GraphDatum>, axesData: AxesData)
  {
    && |axesData.xAxisPoints| <= |graphData|
    && |axesData.yAxisPoints| != 1
    && (|axesData.yAxisPoints| > 0 ==> MaxOf(axesData.yAxisPoints) != 0.0)
  }
}
