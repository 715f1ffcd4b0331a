/**
 * The final bar-chart builder: y-scale divisor 5, a light-grey gridline per y tick, no x ticks,
 * a white value label on each bar, and the chart labels of the base class.
 */
module BarGraph {
  import opened Outcomes
  import opened Numerics
  import opened Sequences
  import opened Svg
  import opened Graphs
  import opened Configurations
  import opened ColourUtility
  import opened Layout
  import opened GraphBuilderBase

  /** The number of intervals the y-scale is cut into. */
  const ScaleCount: nat := 5
  /** The length of a y-axis tick mark, and the drop from the x-axis to the category labels' baseline offset. */
  const PipLength: real := 5.0
  /** The gap between the x pip end and the category label. */
  const ScaleLabelMargin: real := 5.0
  /** How far left of a y tick its label is drawn. */
  const TextOffset: real := 20.0

  // ---- y-axis ----

  /** One y tick: the pip to the left of the axis, the gridline across the plot, and the value label. */
  function YAxisScaleElement(configuration: Configuration, bounds: GraphBounds, scaleLabel: real, scaleHeight: real): seq<Element>
  {
    var centerOffset := TruncDiv(configuration.fontSize, 4);
    var pipStart := Point(bounds.originX, bounds.originY - scaleHeight);
    var pipEnd := Point(bounds.originX - PipLength, bounds.originY - scaleHeight);
    var textPosition := Point(pipEnd.x - TextOffset, pipEnd.y + centerOffset as real);
    [Line(pipStart, pipEnd, Black),
     Line(pipStart, Point(bounds.originX + bounds.width, pipStart.y), LightGray),
     Text(Num(scaleLabel), textPosition, configuration.fontSize, Black)]
  }

  function YAxisScaleElements(configuration: Configuration, bounds: GraphBounds, points: seq<real>, scale: seq<real>): seq<seq<Element>>
    requires |scale| <= |points|
  {
    seq(|scale|, i requires 0 <= i < |scale| => YAxisScaleElement(configuration, bounds, points[i], scale[i]))
  }

  /** One more tick adds its elements at the end. */
  lemma YAxisScaleElementsStep(configuration: Configuration, bounds: GraphBounds, points: seq<real>, scale: seq<real>, i: nat)
    requires |scale| <= |points| && i < |scale|
    ensures Concat(YAxisScaleElements(configuration, bounds, points, scale[..i + 1]))
         == Concat(YAxisScaleElements(configuration, bounds, points, scale[..i])) + YAxisScaleElement(configuration, bounds, points[i], scale[i])
  {
    assert YAxisScaleElements(configuration, bounds, points, scale[..i + 1])
        == YAxisScaleElements(configuration, bounds, points, scale[..i]) + [YAxisScaleElement(configuration, bounds, points[i], scale[i])];
    ConcatAppend(YAxisScaleElements(configuration, bounds, points, scale[..i]), YAxisScaleElement(configuration, bounds, points[i], scale[i]));
  }

  /** What DrawYAxis appends: the axis line, then three elements per tick. */
  function YAxisElements(configuration: Configuration, bounds: GraphBounds, points: seq<real>, scale: seq<real>): seq<Element>
    requires |scale| <= |points|
  {
    [YAxisLine(bounds)] + Concat(YAxisScaleElements(configuration, bounds, points, scale))
  }

  method DrawYAxisLine(builder: SvgBuilder, bounds: GraphBounds)
    modifies builder
    ensures builder.children == old(builder.children) + [YAxisLine(bounds)]
  {
    builder.DrawLine(Point(bounds.originX, bounds.originY), Point(bounds.originX, bounds.originY - bounds.height));
  }

  method DrawYAxisScaleElement(configuration: Configuration, builder: SvgBuilder, bounds: GraphBounds, scaleLabel: real, scaleHeight: real)
    modifies builder
    ensures builder.children == old(builder.children) + YAxisScaleElement(configuration, bounds, scaleLabel, scaleHeight)
  {
    var centerOffset := TruncDiv(configuration.fontSize, 4);
    var pipStart := Point(bounds.originX, bounds.originY - scaleHeight);
    var pipEnd := Point(bounds.originX - PipLength, bounds.originY - scaleHeight);
    var textPosition := Point(pipEnd.x - TextOffset, pipEnd.y + centerOffset as real);
    builder.DrawLine(pipStart, pipEnd);
    builder.DrawLine(pipStart, Point(bounds.originX + bounds.width, pipStart.y), LightGray);
    builder.DrawText(Num(scaleLabel), textPosition, configuration.fontSize);
  }

  method DrawYAxis(configuration: Configuration, builder: SvgBuilder, bounds: GraphBounds, data: AxesData, scale: seq<real>)
    requires |scale| <= |data.yAxisPoints|
    modifies builder
    ensures builder.children == old(builder.children) + YAxisElements(configuration, bounds, data.yAxisPoints, scale)
  {
    DrawYAxisLine(builder, bounds);
    var i := 0;
    while i < |scale|
      invariant 0 <= i <= |scale|
      invariant builder.children == old(builder.children) + [YAxisLine(bounds)]
                                    + Concat(YAxisScaleElements(configuration, bounds, data.yAxisPoints, scale[..i]))
    {
      DrawYAxisScaleElement(configuration, builder, bounds, data.yAxisPoints[i], scale[i]);
      YAxisScaleElementsStep(configuration, bounds, data.yAxisPoints, scale, i);
      i := i + 1;
    }
    assert scale[..i] == scale;
  }

  // ---- x-axis ----

  /** One category: only its label, under the tick position (the pip itself is not drawn). */
  function XAxisScaleElement(configuration: Configuration, bounds: GraphBounds, scaleLabel: string, scaleOffset: real): Element
  {
    var pipEnd := Point(bounds.originX + scaleOffset, bounds.originY + PipLength);
    Text(Str(scaleLabel), Point(pipEnd.x, pipEnd.y + ScaleLabelMargin + configuration.fontSize as real), configuration.fontSize, Black)
  }

  function XAxisScaleElements(configuration: Configuration, bounds: GraphBounds, labels: seq<string>, scale: seq<real>): seq<Element>
    requires |scale| <= |labels|
  {
    seq(|scale|, i requires 0 <= i < |scale| => XAxisScaleElement(configuration, bounds, labels[i], scale[i]))
  }

  /** What DrawXAxis appends: the axis line, then one label per category. */
  function XAxisElements(configuration: Configuration, bounds: GraphBounds, labels: seq<string>, scale: seq<real>): seq<Element>
    requires |scale| <= |labels|
  {
    [XAxisLine(bounds)] + XAxisScaleElements(configuration, bounds, labels, scale)
  }

  method DrawXAxisLine(builder: SvgBuilder, bounds: GraphBounds)
    modifies builder
    ensures builder.children == old(builder.children) + [XAxisLine(bounds)]
  {
    builder.DrawLine(Point(bounds.originX, bounds.originY), Point(bounds.originX + bounds.width, bounds.originY));
  }

  method DrawXAxisScaleElement(configuration: Configuration, builder: SvgBuilder, bounds: GraphBounds, scaleLabel: string, scaleOffset: real)
    modifies builder
    ensures builder.children == old(builder.children) + [XAxisScaleElement(configuration, bounds, scaleLabel, scaleOffset)]
  {
    var pipEnd := Point(bounds.originX + scaleOffset, bounds.originY + PipLength);
    var textPosition := Point(pipEnd.x, pipEnd.y + ScaleLabelMargin + configuration.fontSize as real);
    builder.DrawText(Str(scaleLabel), textPosition, configuration.fontSize);
  }

  method DrawXAxis(configuration: Configuration, builder: SvgBuilder, bounds: GraphBounds, data: AxesData, scale: seq<real>)
    requires |scale| <= |data.xAxisPoints|
    modifies builder
    ensures builder.children == old(builder.children) + XAxisElements(configuration, bounds, data.xAxisPoints, scale)
  {
    DrawXAxisLine(builder, bounds);
    var i := 0;
    while i < |scale|
      invariant 0 <= i <= |scale|
      invariant builder.children == old(builder.children) + [XAxisLine(bounds)]
                                    + XAxisScaleElements(configuration, bounds, data.xAxisPoints, scale[..i])
    {
      DrawXAxisScaleElement(configuration, builder, bounds, data.xAxisPoints[i], scale[i]);
      assert XAxisScaleElements(configuration, bounds, data.xAxisPoints, scale[..i + 1])
          == XAxisScaleElements(configuration, bounds, data.xAxisPoints, scale[..i])
             + [XAxisScaleElement(configuration, bounds, data.xAxisPoints[i], scale[i])];
      i := i + 1;
    }
    assert scale[..i] == scale;
  }

  /** DrawGraphAxes: the y-axis first, then the x-axis. */
  method DrawGraphAxes(configuration: Configuration, builder: SvgBuilder, bounds: GraphBounds, data: AxesData, axesGraphicalData: AxesGraphicalData)
    requires |axesGraphicalData.yScale| <= |data.yAxisPoints| && |axesGraphicalData.xScale| <= |data.xAxisPoints|
    modifies builder
    ensures builder.children == old(builder.children)
                                + YAxisElements(configuration, bounds, data.yAxisPoints, axesGraphicalData.yScale)
                                + XAxisElements(configuration, bounds, data.xAxisPoints, axesGraphicalData.xScale)
  {
    DrawYAxis(configuration, builder, bounds, data, axesGraphicalData.yScale);
    DrawXAxis(configuration, builder, bounds, data, axesGraphicalData.xScale);
  }

  // ---- bars ----

  /** ConstructCommonBarData: the width and colour every bar of the chart shares. */
  function ConstructCommonBarData(axesGraphicalData: AxesGraphicalData, colourIndex: nat): (common: BarGraphicsData)
    requires |axesGraphicalData.xScale| > 0 && colourIndex < |StandardColour()| - 1
    ensures common.colour in StandardColour()
    ensures common.barWidth == BarWidth(axesGraphicalData.xScale[0])
    ensures 0.0 <= axesGraphicalData.xScale[0] ==> 0 <= 2 * common.barWidth && (2 * common.barWidth) as real <= axesGraphicalData.xScale[0]
  {
    var xInterval := Trunc(axesGraphicalData.xScale[0]);
    var barWidth := TruncDiv(xInterval, 2);
    var colour := RandomColour(colourIndex);
    BarGraphicsData(0.0, 0.0, barWidth, 0, colour)
  }

  /**
   * ConstructBarData: the bar of one value keeps the common width and colour, stands on the
   * x-axis, and is centred on its category tick up to integer halving of its width.
   */
  function ConstructBarData(bounds: GraphBounds, scaleOffset: real, yMax: real, common: BarGraphicsData, value: real): (bar: BarGraphicsData)
    requires yMax != 0.0
    ensures bar.barWidth == common.barWidth && bar.colour == common.colour
    ensures bar.barHeight == CalculateBarHeight(bounds, yMax, value)
    ensures bar.y + bar.barHeight as real == bounds.originY
    ensures bar.x + TruncDiv(bar.barWidth, 2) as real == bounds.originX + scaleOffset
  {
    var height := CalculateBarHeight(bounds, yMax, value);
    var x := bounds.originX + scaleOffset - TruncDiv(common.barWidth, 2) as real;
    var y := bounds.originY - height as real;
    common.(x := x, y := y, barHeight := height)
  }

  /** What DrawBar appends: the rectangle (tagged with the class "bar"), then the value in white. */
  function BarElements(configuration: Configuration, value: real, barData: BarGraphicsData): seq<Element>
  {
    var position := Point(barData.x, barData.y);
    var fontSize := configuration.h3FontSize;
    [Rect(position, Size(barData.barWidth, barData.barHeight), barData.colour, Some("bar")),
     Text(Num(value), Point(position.x + TruncDiv(barData.barWidth, 2) as real, position.y + fontSize as real), fontSize, White)]
  }

  method DrawBar(configuration: Configuration, builder: SvgBuilder, value: real, barData: BarGraphicsData)
    modifies builder
    ensures builder.children == old(builder.children) + BarElements(configuration, value, barData)
  {
    var size := Size(barData.barWidth, barData.barHeight);
    var position := Point(barData.x, barData.y);
    var barElement := Rect(position, size, barData.colour, Some("bar"));
    builder.DrawElement(barElement);
    var fontSize := configuration.h3FontSize;
    var labelPosition := Point(position.x + TruncDiv(barData.barWidth, 2) as real, position.y + fontSize as real);
    builder.DrawText(Num(value), labelPosition, fontSize, White);
  }

  function BarsElements(configuration: Configuration, bounds: GraphBounds, graphData: seq<GraphDatum>, xScale: seq<real>, yMax: real, common: BarGraphicsData): seq<seq<Element>>
    requires |xScale| <= |graphData| && yMax != 0.0
  {
    seq(|xScale|, i requires 0 <= i < |xScale| =>
      BarElements(configuration, graphData[i].y, ConstructBarData(bounds, xScale[i], yMax, common, graphData[i].y)))
  }

  /** One more offset adds the elements of one more bar at the end. */
  lemma BarsElementsStep(configuration: Configuration, bounds: GraphBounds, graphData: seq<GraphDatum>, xScale: seq<real>,
                         yMax: real, common: BarGraphicsData, i: nat)
    requires |xScale| <= |graphData| && yMax != 0.0 && i < |xScale|
    ensures Concat(BarsElements(configuration, bounds, graphData, xScale[..i + 1], yMax, common))
         == Concat(BarsElements(configuration, bounds, graphData, xScale[..i], yMax, common))
            + BarElements(configuration, graphData[i].y, ConstructBarData(bounds, xScale[i], yMax, common, graphData[i].y))
  {
    var bar := BarElements(configuration, graphData[i].y, ConstructBarData(bounds, xScale[i], yMax, common, graphData[i].y));
    assert BarsElements(configuration, bounds, graphData, xScale[..i + 1], yMax, common)
        == BarsElements(configuration, bounds, graphData, xScale[..i], yMax, common) + [bar];
    ConcatAppend(BarsElements(configuration, bounds, graphData, xScale[..i], yMax, common), bar);
  }

  /**
   * What DrawBars appends, or the exception it raises first: Max of an empty y-scale, then
   * XScale[0] of an empty x-scale.
   */
  function Bars(configuration: Configuration, bounds: GraphBounds, graphData: seq<GraphDatum>, axesData: AxesData,
                axesGraphicalData: AxesGraphicalData, colourIndex: nat): Result<seq<Element>>
    requires BarsDrawable(graphData, axesData, axesGraphicalData) && colourIndex < |StandardColour()| - 1
  {
    if axesData.yAxisPoints == [] then Err(InvalidOperation)
    else if axesGraphicalData.xScale == [] then Err(ArgumentOutOfRange)
    else
      var yMax := MaxOf(axesData.yAxisPoints);
      var common := ConstructCommonBarData(axesGraphicalData, colourIndex);
      Ok(Concat(BarsElements(configuration, bounds, graphData, axesGraphicalData.xScale, yMax, common)))
  }

  method DrawBars(configuration: Configuration, builder: SvgBuilder, bounds: GraphBounds, graphData: seq<GraphDatum>,
                  axesData: AxesData, axesGraphicalData: AxesGraphicalData, colourIndex: nat) returns (outcome: Outcome)
    requires BarsDrawable(graphData, axesData, axesGraphicalData) && colourIndex < |StandardColour()| - 1
    modifies builder
    ensures var bars := Bars(configuration, bounds, graphData, axesData, axesGraphicalData, colourIndex);
      && (bars.Ok? ==> outcome == Pass && builder.children == old(builder.children) + bars.value)
      && (bars.Err? ==> outcome == Fail(bars.error) && builder.children == old(builder.children))
  {
    if axesData.yAxisPoints == [] {
      return Fail(InvalidOperation);
    }
    var yMax := MaxOf(axesData.yAxisPoints);
    if axesGraphicalData.xScale == [] {
      return Fail(ArgumentOutOfRange);
    }
    var commonBarData := ConstructCommonBarData(axesGraphicalData, colourIndex);
    var xScale := axesGraphicalData.xScale;
    var i := 0;
    while i < |xScale|
      invariant 0 <= i <= |xScale|
      invariant builder.children == old(builder.children)
                                    + Concat(BarsElements(configuration, bounds, graphData, xScale[..i], yMax, commonBarData))
    {
      var value := graphData[i].y;
      var scaleOffset := xScale[i];
      var barData := ConstructBarData(bounds, scaleOffset, yMax, commonBarData, value);
      DrawBar(configuration, builder, value, barData);
      BarsElementsStep(configuration, bounds, graphData, xScale, yMax, commonBarData, i);
      i := i + 1;
    }
    assert xScale[..i] == xScale;
    outcome := Pass;
  }

  // ---- the whole image ----

  /** The document BuildGraphImage returns: axes, bars, then the chart labels, on a width x height canvas. */
  function Image(configuration: Configuration, width: int, height: int, graph: Graph, axesData: AxesData, colourIndex: nat): Result<SvgDocument>
    requires ImageBuildable(graph.data, axesData) && colourIndex < |StandardColour()| - 1
  {
    var bounds := CalculateGraphBounds(width, height);
    var axesGraphicalData := AxesGraphicalData(
      XOffsets(|axesData.xAxisPoints|, bounds.width), YOffsets(|axesData.yAxisPoints|, bounds.height));
    var axes := YAxisElements(configuration, bounds, axesData.yAxisPoints, axesGraphicalData.yScale)
                + XAxisElements(configuration, bounds, axesData.xAxisPoints, axesGraphicalData.xScale);
    match Bars(configuration, bounds, graph.data, axesData, axesGraphicalData, colourIndex)
    case Err(e) => Err(e)
    case Ok(bars) => Ok(SvgDocument(width as real, height as real, axes + bars + LabelElements(configuration, bounds, graph)))
  }

  method BuildGraphImage(configuration: Configuration, width: int, height: int, graph: Graph, axesData: AxesData, colourIndex: nat)
    returns (r: Result<SvgDocument>)
    requires ImageBuildable(graph.data, axesData) && colourIndex < |StandardColour()| - 1
    ensures r == Image(configuration, width, height, graph, axesData, colourIndex)
  {
    var builder := new SvgBuilder(width as real, height as real);
    var graphBounds := CalculateGraphBounds(width, height);
    var axesGraphicalData := CalculateAxesGraphicalData(axesData, graphBounds);
    assert axesGraphicalData == AxesGraphicalData(
      XOffsets(|axesData.xAxisPoints|, graphBounds.width), YOffsets(|axesData.yAxisPoints|, graphBounds.height));
    DrawGraphAxes(configuration, builder, graphBounds, axesData, axesGraphicalData);
    ghost var axes := builder.children;
    assert axes == YAxisElements(configuration, graphBounds, axesData.yAxisPoints, axesGraphicalData.yScale)
                   + XAxisElements(configuration, graphBounds, axesData.xAxisPoints, axesGraphicalData.xScale);
    var drawn := DrawBars(configuration, builder, graphBounds, graph.data, axesData, axesGraphicalData, colourIndex);
    ghost var bars := Bars(configuration, graphBounds, graph.data, axesData, axesGraphicalData, colourIndex);
    if drawn.Fail? {
      assert Image(configuration, width, height, graph, axesData, colourIndex) == Err(bars.error);
      return Err(drawn.error);
    }
    assert builder.children == axes + bars.value;
    DrawLabels(configuration, builder, graphBounds, graph);
    assert Image(configuration, width, height, graph, axesData, colourIndex)
        == Ok(SvgDocument(width as real, height as real, axes + bars.value + LabelElements(configuration, graphBounds, graph)));
    r := Ok(builder.Document());
  }
}

/** Properties of the final bar chart's layout and drawing order. */
module BarGraphProperties {
  import opened Outcomes
  import opened Numerics
  import opened Sequences
  import opened Svg
  import opened Graphs
  import opened Configurations
  import opened ColourUtility
  import opened Layout
  import opened GraphBuilderBase
  import opened BarGraph

  /**
   * The y-axis drawing: the axis line, then for tick i its pip, a light-grey gridline across the
   * whole plot, and its value label 25 pixels left of the axis, lowered by a quarter of the font size.
   */
  lemma {:induction false} YAxisElementsAt(configuration: Configuration, bounds: GraphBounds, points: seq<real>, scale: seq<real>, i: nat)
    requires |scale| <= |points| && i < |scale|
    ensures var e := YAxisElements(configuration, bounds, points, scale);
      var y := bounds.originY - scale[i];
      && |e| == 1 + 3 * |scale|
      && e[0] == Line(Point(bounds.originX, bounds.originY), Point(bounds.originX, bounds.originY - bounds.height), Black)
      && e[1 + 3 * i] == Line(Point(bounds.originX, y), Point(bounds.originX - 5.0, y), Black)
      && e[2 + 3 * i] == Line(Point(bounds.originX, y), Point(bounds.originX + bounds.width, y), LightGray)
      && e[3 + 3 * i] == Text(Num(points[i]), Point(bounds.originX - 25.0, y + TruncDiv(configuration.fontSize, 4) as real),
                              configuration.fontSize, Black)
  {
    var ss := YAxisScaleElements(configuration, bounds, points, scale);
    assert Uniform(ss, 3);
    ConcatAt(ss, 3, i, 0);
    ConcatAt(ss, 3, i, 1);
    ConcatAt(ss, 3, i, 2);
  }

  /** The x-axis drawing: the axis line, then for category i only its label, 10 + FontSize below the axis. */
  lemma XAxisElementsAt(configuration: Configuration, bounds: GraphBounds, labels: seq<string>, scale: seq<real>, i: nat)
    requires |scale| <= |labels| && i < |scale|
    ensures var e := XAxisElements(configuration, bounds, labels, scale);
      && |e| == 1 + |scale|
      && e[0] == Line(Point(bounds.originX, bounds.originY), Point(bounds.originX + bounds.width, bounds.originY), Black)
      && e[1 + i] == Text(Str(labels[i]), Point(bounds.originX + scale[i], bounds.originY + 10.0 + configuration.fontSize as real),
                          configuration.fontSize, Black)
  {
  }

  /**
   * The bar drawing: for datum i its rectangle, standing on the x-axis with the shared width and
   * colour and the rounded height, then its value in white at the bar's top, centred on the tick.
   */
  lemma {:induction false} BarsElementsAt(configuration: Configuration, bounds: GraphBounds, graphData: seq<GraphDatum>,
                                          xScale: seq<real>, yMax: real, common: BarGraphicsData, i: nat)
    requires |xScale| <= |graphData| && yMax != 0.0 && i < |xScale|
    ensures var e := Concat(BarsElements(configuration, bounds, graphData, xScale, yMax, common));
      var h := CalculateBarHeight(bounds, yMax, graphData[i].y);
      var top := bounds.originY - h as real;
      && |e| == 2 * |xScale|
      && e[2 * i].Rect? && e[2 * i].fill == common.colour && e[2 * i].cssClass == Some("bar")
      && e[2 * i].size == Size(common.barWidth, h)
      && e[2 * i].position.y == top
      && e[2 * i].position.x + TruncDiv(common.barWidth, 2) as real == bounds.originX + xScale[i]
      && e[2 * i + 1] == Text(Num(graphData[i].y), Point(bounds.originX + xScale[i], top + configuration.h3FontSize as real),
                              configuration.h3FontSize, White)
  {
    var ss := BarsElements(configuration, bounds, graphData, xScale, yMax, common);
    assert Uniform(ss, 2);
    ConcatAt(ss, 2, i, 0);
    ConcatAt(ss, 2, i, 1);
  }

  /**
   * For data whose largest value rounds up to a positive maximum, the chart is drawn on a canvas
   * of the requested size: 1 + 3m y-axis elements (m = 6 ticks), 1 + n x-axis elements,
   * 2n bar elements and the 3 chart labels, 5 + 3m + 3n in all, in that order.
   */
  lemma {:induction false} ImageShape(configuration: Configuration, width: int, height: int, graph: Graph, colourIndex: nat)
    requires graph.data != [] && FindMaxYScale(graph.data) > 0.0 && colourIndex < |StandardColour()| - 1
    ensures ImageBuildable(graph.data, AxesOf(graph.data, ScaleCount))
    ensures var axesData := AxesOf(graph.data, ScaleCount);
      var r := Image(configuration, width, height, graph, axesData, colourIndex);
      var bounds := CalculateGraphBounds(width, height);
      var m, n := ScaleCount + 1, |graph.data|;
      && r.Ok?
      && r.value.width == width as real && r.value.height == height as real
      && |r.value.children| == 5 + 3 * m + 3 * n
      && r.value.children[..1 + 3 * m] == YAxisElements(configuration, bounds, axesData.yAxisPoints, YOffsets(m, bounds.height))
      && r.value.children[1 + 3 * m..2 + 3 * m + n] == XAxisElements(configuration, bounds, axesData.xAxisPoints, XOffsets(n, bounds.width))
      && r.value.children[2 + 3 * m + n..2 + 3 * m + 3 * n] == Concat(BarsElements(configuration, bounds, graph.data, XOffsets(n, bounds.width),
           FindMaxYScale(graph.data), ConstructCommonBarData(AxesGraphicalData(XOffsets(n, bounds.width), YOffsets(m, bounds.height)), colourIndex)))
      && r.value.children[2 + 3 * m + 3 * n..] == LabelElements(configuration, bounds, graph)
  {
    var max := FindMaxYScale(graph.data);
    var axesData := AxesOf(graph.data, ScaleCount);
    YScaleShape(max, ScaleCount);
    YScaleMax(max, ScaleCount);
    var bounds := CalculateGraphBounds(width, height);
    var m, n := ScaleCount + 1, |graph.data|;
    var xScale := XOffsets(n, bounds.width);
    var yScale := YOffsets(m, bounds.height);
    var ys := YAxisScaleElements(configuration, bounds, axesData.yAxisPoints, yScale);
    assert Uniform(ys, 3);
    ConcatLength(ys, 3);
    var common := ConstructCommonBarData(AxesGraphicalData(xScale, yScale), colourIndex);
    var bs := BarsElements(configuration, bounds, graph.data, xScale, max, common);
    assert Uniform(bs, 2);
    ConcatLength(bs, 2);
  }

  /** Data whose largest value rounds up to a negative maximum leave the y-scale empty, and Max throws. */
  lemma NegativeMaximumFails(configuration: Configuration, width: int, height: int, graph: Graph, colourIndex: nat)
    requires graph.data != [] && FindMaxYScale(graph.data) < 0.0 && colourIndex < |StandardColour()| - 1
    ensures ImageBuildable(graph.data, AxesOf(graph.data, ScaleCount))
    ensures Image(configuration, width, height, graph, AxesOf(graph.data, ScaleCount), colourIndex) == Err(InvalidOperation)
  {
  }
}
