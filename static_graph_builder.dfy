/**
 * The static revision of the builder: y-scale divisor 4, a fixed font size, the x-axis drawn
 * before the y-axis, no gridlines, no value labels, no chart labels, and bars that stop one
 * pixel above the x-axis.
 */
module StaticGraph {
  import opened Outcomes
  import opened Numerics
  import opened Sequences
  import opened Svg
  import opened Graphs
  import opened ColourUtility
  import opened Layout

  /** The number of intervals the y-scale is cut into. */
  const ScaleCount: nat := 4
  /** The font size of every axis label. */
  const FontSize: int := 16
  /** The length of the y tick marks, and the drop to the (undrawn) end of an x tick. */
  const PipLength: real := 5.0
  /** The gap between the end of an x tick and its label. */
  const ScaleLabelMargin: real := 5.0
  /** How far left of a y tick's end its label is drawn. */
  const TextOffset: real := 20.0

  // ---- x-axis ----

  /** One category: its label under the tick position; the tick itself is not drawn. */
  function XAxisLabel(bounds: GraphBounds, scaleLabel: string, scaleOffset: real): Element
  {
    var pipEnd := Point(bounds.originX + scaleOffset, bounds.originY + PipLength);
    Text(Str(scaleLabel), Point(pipEnd.x, pipEnd.y + ScaleLabelMargin + FontSize as real), FontSize, Black)
  }

  function XAxisLabels(bounds: GraphBounds, labels: seq<string>, scale: seq<real>): seq<Element>
    requires |scale| <= |labels|
  {
    seq(|scale|, i requires 0 <= i < |scale| => XAxisLabel(bounds, labels[i], scale[i]))
  }

  /** What DrawXAxis appends: the axis line, then one label per category. */
  function XAxisElements(bounds: GraphBounds, labels: seq<string>, scale: seq<real>): seq<Element>
    requires |scale| <= |labels|
  {
    [XAxisLine(bounds)] + XAxisLabels(bounds, labels, scale)
  }

  method DrawXAxis(builder: SvgBuilder, bounds: GraphBounds, data: AxesData, scale: seq<real>)
    requires |scale| <= |data.xAxisPoints|
    modifies builder
    ensures builder.children == old(builder.children) + XAxisElements(bounds, data.xAxisPoints, scale)
  {
    builder.DrawLine(Point(bounds.originX, bounds.originY), Point(bounds.originX + bounds.width, bounds.originY));
    var i := 0;
    while i < |scale|
      invariant 0 <= i <= |scale|
      invariant builder.children == old(builder.children) + [XAxisLine(bounds)] + XAxisLabels(bounds, data.xAxisPoints, scale[..i])
    {
      var pipEnd := Point(bounds.originX + scale[i], bounds.originY + PipLength);
      var textPosition := Point(pipEnd.x, pipEnd.y + ScaleLabelMargin + FontSize as real);
      builder.DrawText(Str(data.xAxisPoints[i]), textPosition, FontSize);
      assert XAxisLabels(bounds, data.xAxisPoints, scale[..i + 1])
          == XAxisLabels(bounds, data.xAxisPoints, scale[..i]) + [XAxisLabel(bounds, data.xAxisPoints[i], scale[i])];
      i := i + 1;
    }
    assert scale[..i] == scale;
  }

  // ---- y-axis ----

  /** One y tick: the pip to the left of the axis, then the value label; no gridline. */
  function YAxisScaleElement(bounds: GraphBounds, scaleLabel: real, scaleHeight: real): seq<Element>
  {
    var pipStart := Point(bounds.originX, bounds.originY - scaleHeight);
    var pipEnd := Point(bounds.originX - PipLength, bounds.originY - scaleHeight);
    var textPosition := Point(pipEnd.x - TextOffset, pipEnd.y + TruncDiv(FontSize, 4) as real);
    [Line(pipStart, pipEnd, Black), Text(Num(scaleLabel), textPosition, FontSize, Black)]
  }

  function YAxisScaleElements(bounds: GraphBounds, points: seq<real>, scale: seq<real>): seq<seq<Element>>
    requires |scale| <= |points|
  {
    seq(|scale|, i requires 0 <= i < |scale| => YAxisScaleElement(bounds, points[i], scale[i]))
  }

  /** One more tick adds its pip and label at the end. */
  lemma YAxisScaleElementsStep(bounds: GraphBounds, points: seq<real>, scale: seq<real>, i: nat)
    requires |scale| <= |points| && i < |scale|
    ensures Concat(YAxisScaleElements(bounds, points, scale[..i + 1]))
         == Concat(YAxisScaleElements(bounds, points, scale[..i])) + YAxisScaleElement(bounds, points[i], scale[i])
  {
    assert YAxisScaleElements(bounds, points, scale[..i + 1])
        == YAxisScaleElements(bounds, points, scale[..i]) + [YAxisScaleElement(bounds, points[i], scale[i])];
    ConcatAppend(YAxisScaleElements(bounds, points, scale[..i]), YAxisScaleElement(bounds, points[i], scale[i]));
  }

  /** What DrawYAxis appends: the axis line, then two elements per tick. */
  function YAxisElements(bounds: GraphBounds, points: seq<real>, scale: seq<real>): seq<Element>
    requires |scale| <= |points|
  {
    [YAxisLine(bounds)] + Concat(YAxisScaleElements(bounds, points, scale))
  }

  method DrawYAxis(builder: SvgBuilder, bounds: GraphBounds, data: AxesData, scale: seq<real>)
    requires |scale| <= |data.yAxisPoints|
    modifies builder
    ensures builder.children == old(builder.children) + YAxisElements(bounds, data.yAxisPoints, scale)
  {
    builder.DrawLine(Point(bounds.originX, bounds.originY), Point(bounds.originX, bounds.originY - bounds.height));
    var i := 0;
    while i < |scale|
      invariant 0 <= i <= |scale|
      invariant builder.children == old(builder.children) + [YAxisLine(bounds)]
                                    + Concat(YAxisScaleElements(bounds, data.yAxisPoints, scale[..i]))
    {
      var pipStart := Point(bounds.originX, bounds.originY - scale[i]);
      var pipEnd := Point(bounds.originX - PipLength, bounds.originY - scale[i]);
      builder.DrawLine(pipStart, pipEnd);
      var textPosition := Point(pipEnd.x - TextOffset, pipEnd.y + TruncDiv(FontSize, 4) as real);
      builder.DrawText(Num(data.yAxisPoints[i]), textPosition, FontSize);
      YAxisScaleElementsStep(bounds, data.yAxisPoints, scale, i);
      i := i + 1;
    }
    assert scale[..i] == scale;
  }

  /** DrawGraphAxes: the x-axis first, then the y-axis. */
  method DrawGraphAxes(builder: SvgBuilder, bounds: GraphBounds, data: AxesData, axesGraphicalData: AxesGraphicalData)
    requires |axesGraphicalData.yScale| <= |data.yAxisPoints| && |axesGraphicalData.xScale| <= |data.xAxisPoints|
    modifies builder
    ensures builder.children == old(builder.children)
                                + XAxisElements(bounds, data.xAxisPoints, axesGraphicalData.xScale)
                                + YAxisElements(bounds, data.yAxisPoints, axesGraphicalData.yScale)
  {
    DrawXAxis(builder, bounds, data, axesGraphicalData.xScale);
    DrawYAxis(builder, bounds, data, axesGraphicalData.yScale);
  }

  // ---- bars ----

  /**
   * The rectangle of one value: the shared width and colour, the rounded scaled height, its
   * left edge half a width (halved as an integer) left of the tick, its top one pixel higher
   * than the height alone would put it.
   */
  function BarRect(bounds: GraphBounds, scaleOffset: real, yMax: real, barWidth: int, colour: Colour, value: real): Element
    requires yMax != 0.0
  {
    var height := CalculateBarHeight(bounds, yMax, value);
    Rect(Point(bounds.originX + scaleOffset - TruncDiv(barWidth, 2) as real, bounds.originY - height as real - 1.0),
         Size(barWidth, height), colour, None)
  }

  function BarRects(bounds: GraphBounds, graphData: seq<GraphDatum>, xScale: seq<real>, yMax: real, barWidth: int, colour: Colour): seq<Element>
    requires |xScale| <= |graphData| && yMax != 0.0
  {
    seq(|xScale|, i requires 0 <= i < |xScale| => BarRect(bounds, xScale[i], yMax, barWidth, colour, graphData[i].y))
  }

  /**
   * What DrawBars appends, or the exception it raises first: XScale[0] of an empty x-scale,
   * then Max of an empty y-scale.
   */
  function Bars(bounds: GraphBounds, graphData: seq<GraphDatum>, axesData: AxesData, axesGraphicalData: AxesGraphicalData, colourIndex: nat): Result<seq<Element>>
    requires BarsDrawable(graphData, axesData, axesGraphicalData) && colourIndex < |StandardColour()| - 1
  {
    if axesGraphicalData.xScale == [] then Err(ArgumentOutOfRange)
    else if axesData.yAxisPoints == [] then Err(InvalidOperation)
    else
      var barWidth := TruncDiv(Trunc(axesGraphicalData.xScale[0]), 2);
      Ok(BarRects(bounds, graphData, axesGraphicalData.xScale, MaxOf(axesData.yAxisPoints), barWidth, RandomColour(colourIndex)))
  }

  method DrawBars(builder: SvgBuilder, bounds: GraphBounds, graphData: seq<GraphDatum>, axesData: AxesData,
                  axesGraphicalData: AxesGraphicalData, colourIndex: nat) returns (outcome: Outcome)
    requires BarsDrawable(graphData, axesData, axesGraphicalData) && colourIndex < |StandardColour()| - 1
    modifies builder
    ensures var bars := Bars(bounds, graphData, axesData, axesGraphicalData, colourIndex);
      && (bars.Ok? ==> outcome == Pass && builder.children == old(builder.children) + bars.value)
      && (bars.Err? ==> outcome == Fail(bars.error) && builder.children == old(builder.children))
  {
    var xScale := axesGraphicalData.xScale;
    if xScale == [] {
      return Fail(ArgumentOutOfRange);
    }
    var xInterval := Trunc(xScale[0]);
    var barWidth := TruncDiv(xInterval, 2);
    if axesData.yAxisPoints == [] {
      return Fail(InvalidOperation);
    }
    var yMax := MaxOf(axesData.yAxisPoints);
    var colour := RandomColour(colourIndex);
    var i := 0;
    while i < |xScale|
      invariant 0 <= i <= |xScale|
      invariant builder.children == old(builder.children) + BarRects(bounds, graphData, xScale[..i], yMax, barWidth, colour)
    {
      var height := CalculateBarHeight(bounds, yMax, graphData[i].y);
      var size := Size(barWidth, height);
      var position := Point(bounds.originX + xScale[i] - TruncDiv(barWidth, 2) as real, bounds.originY - height as real - 1.0);
      builder.DrawRect(position, size, colour);
      assert BarRects(bounds, graphData, xScale[..i + 1], yMax, barWidth, colour)
          == BarRects(bounds, graphData, xScale[..i], yMax, barWidth, colour) + [BarRect(bounds, xScale[i], yMax, barWidth, colour, graphData[i].y)];
      i := i + 1;
    }
    assert xScale[..i] == xScale;
    outcome := Pass;
  }

  // ---- the whole image ----

  /** The document BuildGraphImage returns: x-axis, y-axis, then the bars, on a width x height canvas. */
  function Image(width: int, height: int, graph: Graph, axesData: AxesData, colourIndex: nat): Result<SvgDocument>
    requires ImageBuildable(graph.data, axesData) && colourIndex < |StandardColour()| - 1
  {
    var bounds := CalculateGraphBounds(width, height);
    var axesGraphicalData := AxesGraphicalData(
      XOffsets(|axesData.xAxisPoints|, bounds.width), YOffsets(|axesData.yAxisPoints|, bounds.height));
    var axes := XAxisElements(bounds, axesData.xAxisPoints, axesGraphicalData.xScale)
                + YAxisElements(bounds, axesData.yAxisPoints, axesGraphicalData.yScale);
    match Bars(bounds, graph.data, axesData, axesGraphicalData, colourIndex)
    case Err(e) => Err(e)
    case Ok(bars) => Ok(SvgDocument(width as real, height as real, axes + bars))
  }

  method BuildGraphImage(width: int, height: int, graph: Graph, axesData: AxesData, colourIndex: nat) returns (r: Result<SvgDocument>)
    requires ImageBuildable(graph.data, axesData) && colourIndex < |StandardColour()| - 1
    ensures r == Image(width, height, graph, axesData, colourIndex)
  {
    var builder := new SvgBuilder(width as real, height as real);
    var graphBounds := CalculateGraphBounds(width, height);
    var axesGraphicalData := CalculateAxesGraphicalData(axesData, graphBounds);
    assert axesGraphicalData == AxesGraphicalData(
      XOffsets(|axesData.xAxisPoints|, graphBounds.width), YOffsets(|axesData.yAxisPoints|, graphBounds.height));
    DrawGraphAxes(builder, graphBounds, axesData, axesGraphicalData);
    ghost var axes := builder.children;
    assert axes == XAxisElements(graphBounds, axesData.xAxisPoints, axesGraphicalData.xScale)
                   + YAxisElements(graphBounds, axesData.yAxisPoints, axesGraphicalData.yScale);
    var drawn := DrawBars(builder, graphBounds, graph.data, axesData, axesGraphicalData, colourIndex);
    ghost var bars := Bars(graphBounds, graph.data, axesData, axesGraphicalData, colourIndex);
    if drawn.Fail? {
      assert Image(width, height, graph, axesData, colourIndex) == Err(bars.error);
      return Err(drawn.error);
    }
    assert Image(width, height, graph, axesData, colourIndex) == Ok(SvgDocument(width as real, height as real, axes + bars.value));
    r := Ok(builder.Document());
  }

  /**
   * Build: Max over no data throws; otherwise the document is the image of the axes data
   * computed from the graph's data. colourIndex stands for the random draw of the bar colour.
   */
  method Build(width: int, height: int, graph: Graph, colourIndex: nat) returns (r: Result<SvgDocument>)
    requires colourIndex < |StandardColour()| - 1
    requires graph.data == [] || FindMaxYScale(graph.data) != 0.0
    ensures graph.data == [] ==> r == Err(InvalidOperation)
    ensures graph.data != [] ==> ImageBuildable(graph.data, AxesOf(graph.data, ScaleCount))
    ensures graph.data != [] ==> r == Image(width, height, graph, AxesOf(graph.data, ScaleCount), colourIndex)
  {
    var axesData := CalculateAxesData(graph.data, ScaleCount);
    if axesData.Err? {
      return Err(axesData.error);
    }
    var max := FindMaxYScale(graph.data);
    if max > 0.0 {
      YScaleShape(max, ScaleCount);
      YScaleMax(max, ScaleCount);
    }
    r := BuildGraphImage(width, height, graph, axesData.value, colourIndex);
  }
}

/** Properties of the static revision's layout and drawing order. */
module StaticGraphProperties {
  import opened Outcomes
  import opened Numerics
  import opened Sequences
  import opened Svg
  import opened Graphs
  import opened ColourUtility
  import opened Layout
  import opened StaticGraph

  /** The x-axis drawing: the axis line, then for category i only its label, 26 pixels below the axis at the tick. */
  lemma XAxisElementsAt(bounds: GraphBounds, labels: seq<string>, scale: seq<real>, i: nat)
    requires |scale| <= |labels| && i < |scale|
    ensures var e := XAxisElements(bounds, labels, scale);
      && |e| == 1 + |scale|
      && e[0] == Line(Point(bounds.originX, bounds.originY), Point(bounds.originX + bounds.width, bounds.originY), Black)
      && e[1 + i] == Text(Str(labels[i]), Point(bounds.originX + scale[i], bounds.originY + 26.0), 16, Black)
  {
  }

  /** The y-axis drawing: the axis line, then for tick i its pip and its value label, 25 pixels left of the axis and 4 lower. */
  lemma {:induction false} YAxisElementsAt(bounds: GraphBounds, points: seq<real>, scale: seq<real>, i: nat)
    requires |scale| <= |points| && i < |scale|
    ensures var e := YAxisElements(bounds, points, scale);
      var y := bounds.originY - scale[i];
      && |e| == 1 + 2 * |scale|
      && e[0] == Line(Point(bounds.originX, bounds.originY), Point(bounds.originX, bounds.originY - bounds.height), Black)
      && e[1 + 2 * i] == Line(Point(bounds.originX, y), Point(bounds.originX - 5.0, y), Black)
      && e[2 + 2 * i] == Text(Num(points[i]), Point(bounds.originX - 25.0, y + 4.0), 16, Black)
  {
    var ss := YAxisScaleElements(bounds, points, scale);
    assert Uniform(ss, 2);
    ConcatAt(ss, 2, i, 0);
    ConcatAt(ss, 2, i, 1);
  }

  /**
   * A bar of this revision has the rounded scaled height, is centred on its tick up to integer
   * halving, and its bottom edge is one pixel above the x-axis.
   */
  lemma BarRectPlacement(bounds: GraphBounds, scaleOffset: real, yMax: real, barWidth: int, colour: Colour, value: real)
    requires yMax != 0.0
    ensures var r := BarRect(bounds, scaleOffset, yMax, barWidth, colour, value);
      && r.Rect? && r.fill == colour && r.cssClass == None
      && r.size == Size(barWidth, CalculateBarHeight(bounds, yMax, value))
      && r.position.y + r.size.height as real == bounds.originY - 1.0
      && r.position.x + TruncDiv(barWidth, 2) as real == bounds.originX + scaleOffset
  {
  }

  /**
   * For data whose largest value rounds up to a positive maximum, the chart is drawn on a canvas
   * of the requested size: 1 + n x-axis elements, 1 + 2m y-axis elements (m = 5 ticks) and one
   * rectangle per datum, all in the one colour drawn for the chart: 12 + 2n in all, in that order.
   */
  lemma {:induction false} ImageShape(width: int, height: int, graph: Graph, colourIndex: nat)
    requires graph.data != [] && FindMaxYScale(graph.data) > 0.0 && colourIndex < |StandardColour()| - 1
    ensures ImageBuildable(graph.data, AxesOf(graph.data, ScaleCount))
    ensures var axesData := AxesOf(graph.data, ScaleCount);
      var r := Image(width, height, graph, axesData, colourIndex);
      var bounds := CalculateGraphBounds(width, height);
      var m, n := ScaleCount + 1, |graph.data|;
      && r.Ok?
      && r.value.width == width as real && r.value.height == height as real
      && |r.value.children| == 2 + 2 * m + 2 * n
      && r.value.children[..1 + n] == XAxisElements(bounds, axesData.xAxisPoints, XOffsets(n, bounds.width))
      && r.value.children[1 + n..2 + 2 * m + n] == YAxisElements(bounds, axesData.yAxisPoints, YOffsets(m, bounds.height))
      && r.value.children[2 + 2 * m + n..] == BarRects(bounds, graph.data, XOffsets(n, bounds.width), FindMaxYScale(graph.data),
           BarWidth(XOffsets(n, bounds.width)[0]), RandomColour(colourIndex))
      && (forall i :: 2 + 2 * m + n <= i < |r.value.children| ==>
            r.value.children[i].Rect? && r.value.children[i].fill == RandomColour(colourIndex))
  {
    var max := FindMaxYScale(graph.data);
    var axesData := AxesOf(graph.data, ScaleCount);
    YScaleShape(max, ScaleCount);
    YScaleMax(max, ScaleCount);
    var bounds := CalculateGraphBounds(width, height);
    var m := ScaleCount + 1;
    var ys := YAxisScaleElements(bounds, axesData.yAxisPoints, YOffsets(m, bounds.height));
    assert Uniform(ys, 2);
    ConcatLength(ys, 2);
  }

  /** Data whose largest value rounds up to a negative maximum leave the y-scale empty, and Max throws. */
  lemma NegativeMaximumFails(width: int, height: int, graph: Graph, colourIndex: nat)
    requires graph.data != [] && FindMaxYScale(graph.data) < 0.0 && colourIndex < |StandardColour()| - 1
    ensures ImageBuildable(graph.data, AxesOf(graph.data, ScaleCount))
    ensures Image(width, height, graph, AxesOf(graph.data, ScaleCount), colourIndex) == Err(InvalidOperation)
  {
  }
}
