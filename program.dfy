/**
 * The prototype: a fixed sample of four data points drawn on a 1000 x 1000 canvas with its own
 * minimal canvas builder. Y-scale divisor 4, x ticks drawn under each category, black gridlines
 * across the plot, and every bar filled red.
 */
module Prototype {
  import opened Outcomes
  import opened Numerics
  import opened Sequences
  import opened Svg
  import opened Graphs
  import opened Layout
  import StaticGraph

  /** The number of intervals the y-scale is cut into. */
  const ScaleCount: nat := 4
  /** The font size of every axis label. */
  const FontSize: int := 16
  /** The length of every tick mark. */
  const PipLength: real := 5.0
  /** The gap between the end of an x tick and its label. */
  const ScaleLabelMargin: real := 5.0
  /** How far left of a y tick's end its label is drawn. */
  const TextOffset: real := 20.0
  /** The size of the canvas the prototype draws on. */
  const CanvasWidth: int := 1000
  const CanvasHeight: int := 1000

  /**
   * The prototype's own canvas builder: lines always black, text always with the default fill,
   * rectangles always red.
   */
  class SvgBuilder {
    const width: real
    const height: real
    var children: seq<Element>

    function Document(): (d: SvgDocument)
      reads this
      ensures d.width == width && d.height == height && d.children == children
    {
      SvgDocument(width, height, children)
    }

    constructor (width: real, height: real)
      ensures this.width == width && this.height == height
      ensures children == []
    {
      this.width := width;
      this.height := height;
      children := [];
    }

    method DrawLine(start: Point, end: Point)
      modifies this
      ensures children == old(children) + [Line(start, end, Black)]
    {
      children := children + [Line(start, end, Black)];
    }

    method DrawText(text: Label, position: Point, fontSize: int)
      modifies this
      ensures children == old(children) + [Text(text, position, fontSize, Black)]
    {
      children := children + [Text(text, position, fontSize, Black)];
    }

    method DrawRect(position: Point, size: Size)
      modifies this
      ensures children == old(children) + [Rect(position, size, Red, None)]
    {
      children := children + [Rect(position, size, Red, None)];
    }
  }

  /** RetrieveGraphData: the hard-coded sample, whose largest value 2.5 rounds up to 3. */
  function RetrieveGraphData(): (data: seq<GraphDatum>)
    ensures |data| == 4
    ensures FindMaxYScale(data) == 3.0
  {
    [GraphDatum("Hello", 1.0), GraphDatum("Goodbye", 2.5), GraphDatum("Another", 1.2), GraphDatum("One", 0.2)]
  }

  // ---- x-axis ----

  /** One category: its tick below the axis, then its label under the tick. */
  function XAxisScaleElement(bounds: GraphBounds, scaleLabel: string, scaleOffset: real): seq<Element>
  {
    var pipStart := Point(bounds.originX + scaleOffset, bounds.originY);
    var pipEnd := Point(bounds.originX + scaleOffset, bounds.originY + PipLength);
    [Line(pipStart, pipEnd, Black), Text(Str(scaleLabel), Point(pipEnd.x, pipEnd.y + ScaleLabelMargin + FontSize as real), FontSize, Black)]
  }

  function XAxisScaleElements(bounds: GraphBounds, labels: seq<string>, scale: seq<real>): seq<seq<Element>>
    requires |scale| <= |labels|
  {
    seq(|scale|, i requires 0 <= i < |scale| => XAxisScaleElement(bounds, labels[i], scale[i]))
  }

  /** One more tick adds its elements at the end. */
  lemma XAxisScaleElementsStep(bounds: GraphBounds, labels: seq<string>, scale: seq<real>, i: nat)
    requires |scale| <= |labels| && i < |scale|
    ensures Concat(XAxisScaleElements(bounds, labels, scale[..i + 1]))
         == Concat(XAxisScaleElements(bounds, labels, scale[..i])) + XAxisScaleElement(bounds, labels[i], scale[i])
  {
    assert XAxisScaleElements(bounds, labels, scale[..i + 1])
        == XAxisScaleElements(bounds, labels, scale[..i]) + [XAxisScaleElement(bounds, labels[i], scale[i])];
    ConcatAppend(XAxisScaleElements(bounds, labels, scale[..i]), XAxisScaleElement(bounds, labels[i], scale[i]));
  }

  /** What DrawXAxis appends: the axis line, then two elements per category. */
  function XAxisElements(bounds: GraphBounds, labels: seq<string>, scale: seq<real>): seq<Element>
    requires |scale| <= |labels|
  {
    [XAxisLine(bounds)] + Concat(XAxisScaleElements(bounds, labels, scale))
  }

  method DrawXAxis(builder: SvgBuilder, bounds: GraphBounds, data: AxesData, scale: seq<real>)
    requires |scale| <= |data.xAxisPoints|
    modifies builder
    ensures builder.children == old(builder.children) + XAxisElements(bounds, data.xAxisPoints, scale)
  {
    builder.DrawLine(Point(bounds.originX, bounds.originY), Point(bounds.originX + bounds.width, bounds.originY));
    var i := 0;
    while i < |scale|
      invariant 0 <= i <= |scale|
      invariant builder.children == old(builder.children) + [XAxisLine(bounds)]
                                    + Concat(XAxisScaleElements(bounds, data.xAxisPoints, scale[..i]))
    {
      var pipStart := Point(bounds.originX + scale[i], bounds.originY);
      var pipEnd := Point(bounds.originX + scale[i], bounds.originY + PipLength);
      builder.DrawLine(pipStart, pipEnd);
      var textPosition := Point(pipEnd.x, pipEnd.y + ScaleLabelMargin + FontSize as real);
      builder.DrawText(Str(data.xAxisPoints[i]), textPosition, FontSize);
      XAxisScaleElementsStep(bounds, data.xAxisPoints, scale, i);
      i := i + 1;
    }
    assert scale[..i] == scale;
  }

  // ---- y-axis ----

  /** One y tick: the pip left of the axis, a black gridline across the plot, and the value label. */
  function YAxisScaleElement(bounds: GraphBounds, scaleLabel: real, scaleHeight: real): seq<Element>
  {
    var pipStart := Point(bounds.originX, bounds.originY - scaleHeight);
    var pipEnd := Point(bounds.originX - PipLength, bounds.originY - scaleHeight);
    var textPosition := Point(pipEnd.x - TextOffset, pipEnd.y + TruncDiv(FontSize, 4) as real);
    [Line(pipStart, pipEnd, Black),
     Line(pipStart, Point(bounds.originX + bounds.width, pipStart.y), Black),
     Text(Num(scaleLabel), textPosition, FontSize, Black)]
  }

  function YAxisScaleElements(bounds: GraphBounds, points: seq<real>, scale: seq<real>): seq<seq<Element>>
    requires |scale| <= |points|
  {
    seq(|scale|, i requires 0 <= i < |scale| => YAxisScaleElement(bounds, points[i], scale[i]))
  }

  /** One more tick adds its elements at the end. */
  lemma YAxisScaleElementsStep(bounds: GraphBounds, points: seq<real>, scale: seq<real>, i: nat)
    requires |scale| <= |points| && i < |scale|
    ensures Concat(YAxisScaleElements(bounds, points, scale[..i + 1]))
         == Concat(YAxisScaleElements(bounds, points, scale[..i])) + YAxisScaleElement(bounds, points[i], scale[i])
  {
    assert YAxisScaleElements(bounds, points, scale[..i + 1])
        == YAxisScaleElements(bounds, points, scale[..i]) + [YAxisScaleElement(bounds, points[i], scale[i])];
    ConcatAppend(YAxisScaleElements(bounds, points, scale[..i]), YAxisScaleElement(bounds, points[i], scale[i]));
  }

  /** What DrawYAxis appends: the axis line, then three elements per tick. */
  function YAxisElements(bounds: GraphBounds, points: seq<real>, scale: seq<real>): seq<Element>
    requires |scale| <= |points|
  {
    [YAxisLine(bounds)] + Concat(YAxisScaleElements(bounds, points, scale))
  }

  method DrawYAxis(builder: SvgBuilder, bounds: GraphBounds, data: AxesData, scale: seq<real>)
    requires |scale| <= |data.yAxisPoints|
    modifies builder
    ensures builder.children == old(builder.children) + YAxisElements(bounds, data.yAxisPoints, scale)
  {
    builder.DrawLine(Point(bounds.originX, bounds.originY), Point(bounds.originX, bounds.originY - bounds.height));
    var i := 0;
    while i < |scale|
      invariant 0 <= i <= |scale|
      invariant builder.children == old(builder.children) + [YAxisLine(bounds)]
                                    + Concat(YAxisScaleElements(bounds, data.yAxisPoints, scale[..i]))
    {
      var pipStart := Point(bounds.originX, bounds.originY - scale[i]);
      var pipEnd := Point(bounds.originX - PipLength, bounds.originY - scale[i]);
      builder.DrawLine(pipStart, pipEnd);
      builder.DrawLine(pipStart, Point(bounds.originX + bounds.width, pipStart.y));
      var textPosition := Point(pipEnd.x - TextOffset, pipEnd.y + TruncDiv(FontSize, 4) as real);
      builder.DrawText(Num(data.yAxisPoints[i]), textPosition, FontSize);
      YAxisScaleElementsStep(bounds, data.yAxisPoints, scale, i);
      i := i + 1;
    }
    assert scale[..i] == scale;
  }

  /** DrawGraphAxes: the x-axis first, then the y-axis. */
  method DrawGraphAxes(builder: SvgBuilder, bounds: GraphBounds, data: AxesData, axesGraphicalData: AxesGraphicalData)
    requires |axesGraphicalData.yScale| <= |data.yAxisPoints| && |axesGraphicalData.xScale| <= |data.xAxisPoints|
    modifies builder
    ensures builder.children == old(builder.children)
                                + XAxisElements(bounds, data.xAxisPoints, axesGraphicalData.xScale)
                                + YAxisElements(bounds, data.yAxisPoints, axesGraphicalData.yScale)
  {
    DrawXAxis(builder, bounds, data, axesGraphicalData.xScale);
    DrawYAxis(builder, bounds, data, axesGraphicalData.yScale);
  }

  // ---- bars ----

  /**
   * What DrawBars appends, or the exception it raises first: XScale[0] of an empty x-scale,
   * then Max of an empty y-scale. The rectangles are those of the static revision, in red.
   */
  function Bars(bounds: GraphBounds, graphData: seq<GraphDatum>, axesData: AxesData, axesGraphicalData: AxesGraphicalData): Result<seq<Element>>
    requires BarsDrawable(graphData, axesData, axesGraphicalData)
  {
    if axesGraphicalData.xScale == [] then Err(ArgumentOutOfRange)
    else if axesData.yAxisPoints == [] then Err(InvalidOperation)
    else
      var barWidth := TruncDiv(Trunc(axesGraphicalData.xScale[0]), 2);
      Ok(StaticGraph.BarRects(bounds, graphData, axesGraphicalData.xScale, MaxOf(axesData.yAxisPoints), barWidth, Red))
  }

  method DrawBars(builder: SvgBuilder, bounds: GraphBounds, graphData: seq<GraphDatum>, axesData: AxesData,
                  axesGraphicalData: AxesGraphicalData) returns (outcome: Outcome)
    requires BarsDrawable(graphData, axesData, axesGraphicalData)
    modifies builder
    ensures var bars := Bars(bounds, graphData, axesData, axesGraphicalData);
      && (bars.Ok? ==> outcome == Pass && builder.children == old(builder.children) + bars.value)
      && (bars.Err? ==> outcome == Fail(bars.error) && builder.children == old(builder.children))
  {
    var xScale := axesGraphicalData.xScale;
    if xScale == [] {
      return Fail(ArgumentOutOfRange);
    }
    var xInterval := Trunc(xScale[0]);
    var barWidth := TruncDiv(xInterval, 2);
    if axesData.yAxisPoints == [] {
      return Fail(InvalidOperation);
    }
    var yMax := MaxOf(axesData.yAxisPoints);
    var i := 0;
    while i < |xScale|
      invariant 0 <= i <= |xScale|
      invariant builder.children == old(builder.children) + StaticGraph.BarRects(bounds, graphData, xScale[..i], yMax, barWidth, Red)
    {
      var height := CalculateBarHeight(bounds, yMax, graphData[i].y);
      var size := Size(barWidth, height);
      var position := Point(bounds.originX + xScale[i] - TruncDiv(barWidth, 2) as real, bounds.originY - height as real - 1.0);
      builder.DrawRect(position, size);
      assert StaticGraph.BarRects(bounds, graphData, xScale[..i + 1], yMax, barWidth, Red)
          == StaticGraph.BarRects(bounds, graphData, xScale[..i], yMax, barWidth, Red)
             + [StaticGraph.BarRect(bounds, xScale[i], yMax, barWidth, Red, graphData[i].y)];
      i := i + 1;
    }
    assert xScale[..i] == xScale;
    outcome := Pass;
  }

  // ---- the whole image ----

  /** The document BuildGraphImage returns: x-axis, y-axis, then the bars, on a width x height canvas. */
  function Image(width: int, height: int, graphData: seq<GraphDatum>, axesData: AxesData): Result<SvgDocument>
    requires ImageBuildable(graphData, axesData)
  {
    var bounds := CalculateGraphBounds(width, height);
    var axesGraphicalData := AxesGraphicalData(
      XOffsets(|axesData.xAxisPoints|, bounds.width), YOffsets(|axesData.yAxisPoints|, bounds.height));
    var axes := XAxisElements(bounds, axesData.xAxisPoints, axesGraphicalData.xScale)
                + YAxisElements(bounds, axesData.yAxisPoints, axesGraphicalData.yScale);
    match Bars(bounds, graphData, axesData, axesGraphicalData)
    case Err(e) => Err(e)
    case Ok(bars) => Ok(SvgDocument(width as real, height as real, axes + bars))
  }

  /** BuildGraphImage, with the plot bounds worked out inline as in the prototype. */
  method BuildGraphImage(width: int, height: int, graphData: seq<GraphDatum>, axesData: AxesData) returns (r: Result<SvgDocument>)
    requires ImageBuildable(graphData, axesData)
    ensures r == Image(width, height, graphData, axesData)
  {
    var builder := new SvgBuilder(width as real, height as real);
    var margin := 100;
    var graphBounds := GraphBounds(
      originX := margin as real,
      originY := (height - margin) as real,
      width := (width - 2 * margin) as real,
      height := (height - 2 * margin) as real);
    assert graphBounds == CalculateGraphBounds(width, height);
    var axesGraphicalData := CalculateAxesGraphicalData(axesData, graphBounds);
    assert axesGraphicalData == AxesGraphicalData(
      XOffsets(|axesData.xAxisPoints|, graphBounds.width), YOffsets(|axesData.yAxisPoints|, graphBounds.height));
    DrawGraphAxes(builder, graphBounds, axesData, axesGraphicalData);
    ghost var axes := builder.children;
    assert axes == XAxisElements(graphBounds, axesData.xAxisPoints, axesGraphicalData.xScale)
                   + YAxisElements(graphBounds, axesData.yAxisPoints, axesGraphicalData.yScale);
    var drawn := DrawBars(builder, graphBounds, graphData, axesData, axesGraphicalData);
    ghost var bars := Bars(graphBounds, graphData, axesData, axesGraphicalData);
    if drawn.Fail? {
      assert Image(width, height, graphData, axesData) == Err(bars.error);
      return Err(drawn.error);
    }
    assert Image(width, height, graphData, axesData) == Ok(SvgDocument(width as real, height as real, axes + bars.value));
    r := Ok(builder.Document());
  }

  /**
   * The prototype's Main up to writing the file: the sample data, its axes data, and the chart
   * built on a 1000 x 1000 canvas.
   */
  method BuildSampleGraph() returns (r: Result<SvgDocument>)
    ensures ImageBuildable(RetrieveGraphData(), AxesOf(RetrieveGraphData(), ScaleCount))
    ensures r == Image(CanvasWidth, CanvasHeight, RetrieveGraphData(), AxesOf(RetrieveGraphData(), ScaleCount))
  {
    var graphData := RetrieveGraphData();
    var axesData := CalculateAxesData(graphData, ScaleCount);
    YScaleShape(3.0, ScaleCount);
    YScaleMax(3.0, ScaleCount);
    r := BuildGraphImage(CanvasWidth, CanvasHeight, graphData, axesData.value);
  }
}

/** Properties of the prototype's drawing, and the chart it draws for its sample data. */
module PrototypeProperties {
  import opened Outcomes
  import opened Numerics
  import opened Sequences
  import opened Svg
  import opened Graphs
  import opened Layout
  import opened Prototype
  import StaticGraph

  /** The x-axis drawing: the axis line, then for category i a 5-pixel tick down from the axis and the label 26 pixels below it. */
  lemma {:induction false} XAxisElementsAt(bounds: GraphBounds, labels: seq<string>, scale: seq<real>, i: nat)
    requires |scale| <= |labels| && i < |scale|
    ensures var e := XAxisElements(bounds, labels, scale);
      var x := bounds.originX + scale[i];
      && |e| == 1 + 2 * |scale|
      && e[0] == Line(Point(bounds.originX, bounds.originY), Point(bounds.originX + bounds.width, bounds.originY), Black)
      && e[1 + 2 * i] == Line(Point(x, bounds.originY), Point(x, bounds.originY + 5.0), Black)
      && e[2 + 2 * i] == Text(Str(labels[i]), Point(x, bounds.originY + 26.0), 16, Black)
  {
    var ss := XAxisScaleElements(bounds, labels, scale);
    assert Uniform(ss, 2);
    ConcatAt(ss, 2, i, 0);
    ConcatAt(ss, 2, i, 1);
  }

  /** The y-axis drawing: the axis line, then for tick i its pip, a black gridline across the plot, and its value label. */
  lemma {:induction false} YAxisElementsAt(bounds: GraphBounds, points: seq<real>, scale: seq<real>, i: nat)
    requires |scale| <= |points| && i < |scale|
    ensures var e := YAxisElements(bounds, points, scale);
      var y := bounds.originY - scale[i];
      && |e| == 1 + 3 * |scale|
      && e[0] == Line(Point(bounds.originX, bounds.originY), Point(bounds.originX, bounds.originY - bounds.height), Black)
      && e[1 + 3 * i] == Line(Point(bounds.originX, y), Point(bounds.originX - 5.0, y), Black)
      && e[2 + 3 * i] == Line(Point(bounds.originX, y), Point(bounds.originX + bounds.width, y), Black)
      && e[3 + 3 * i] == Text(Num(points[i]), Point(bounds.originX - 25.0, y + 4.0), 16, Black)
  {
    var ss := YAxisScaleElements(bounds, points, scale);
    assert Uniform(ss, 3);
    ConcatAt(ss, 3, i, 0);
    ConcatAt(ss, 3, i, 1);
    ConcatAt(ss, 3, i, 2);
  }

  /**
   * For data whose largest value rounds up to a positive maximum, the chart has 1 + 2n x-axis
   * elements, 1 + 3m y-axis elements (m = 5 ticks) and n red rectangles, 17 + 3n in all.
   */
  lemma {:induction false} ImageShape(width: int, height: int, graphData: seq<GraphDatum>)
    requires graphData != [] && FindMaxYScale(graphData) > 0.0
    ensures ImageBuildable(graphData, AxesOf(graphData, ScaleCount))
    ensures var axesData := AxesOf(graphData, ScaleCount);
      var r := Image(width, height, graphData, axesData);
      var bounds := CalculateGraphBounds(width, height);
      var m, n := ScaleCount + 1, |graphData|;
      && r.Ok?
      && r.value.width == width as real && r.value.height == height as real
      && |r.value.children| == 2 + 3 * m + 3 * n
      && r.value.children[..1 + 2 * n] == XAxisElements(bounds, axesData.xAxisPoints, XOffsets(n, bounds.width))
      && r.value.children[1 + 2 * n..2 + 3 * m + 2 * n] == YAxisElements(bounds, axesData.yAxisPoints, YOffsets(m, bounds.height))
      && r.value.children[2 + 3 * m + 2 * n..] == StaticGraph.BarRects(bounds, graphData, XOffsets(n, bounds.width), FindMaxYScale(graphData),
           BarWidth(XOffsets(n, bounds.width)[0]), Red)
      && (forall i :: 2 + 3 * m + 2 * n <= i < |r.value.children| ==> r.value.children[i].Rect? && r.value.children[i].fill == Red)
  {
    var max := FindMaxYScale(graphData);
    var axesData := AxesOf(graphData, ScaleCount);
    YScaleShape(max, ScaleCount);
    YScaleMax(max, ScaleCount);
    var bounds := CalculateGraphBounds(width, height);
    var m, n := ScaleCount + 1, |graphData|;
    var xs := XAxisScaleElements(bounds, axesData.xAxisPoints, XOffsets(n, bounds.width));
    assert Uniform(xs, 2);
    ConcatLength(xs, 2);
    var ys := YAxisScaleElements(bounds, axesData.yAxisPoints, YOffsets(m, bounds.height));
    assert Uniform(ys, 3);
    ConcatLength(ys, 3);
  }

  /**
   * The sample's axes: the maximum 2.5 rounds up to 3, cut into quarters; on the 800 x 800 plot the
   * four categories sit 160 pixels apart and the five y ticks 200 pixels apart.
   */
  lemma SampleAxes()
    ensures AxesOf(RetrieveGraphData(), ScaleCount) == AxesData(["Hello", "Goodbye", "Another", "One"], [0.0, 0.75, 1.5, 2.25, 3.0])
    ensures CalculateGraphBounds(CanvasWidth, CanvasHeight) == GraphBounds(100.0, 900.0, 800.0, 800.0)
    ensures XOffsets(4, 800.0) == [160.0, 320.0, 480.0, 640.0]
    ensures YOffsets(5, 800.0) == [0.0, 200.0, 400.0, 600.0, 800.0]
  {
    var data := RetrieveGraphData();
    assert CalculateXAxis(data) == ["Hello", "Goodbye", "Another", "One"];
    assert YScale(3.0, ScaleCount) == [0.0, 0.75, 1.5, 2.25, 3.0];
  }

  /** The heights of the sample's bars: each value's share of 3 scaled to 800 pixels and rounded. */
  lemma SampleBarHeights(bounds: GraphBounds)
    requires bounds.height == 800.0
    ensures CalculateBarHeight(bounds, 3.0, 1.0) == 267
    ensures CalculateBarHeight(bounds, 3.0, 2.5) == 667
    ensures CalculateBarHeight(bounds, 3.0, 1.2) == 320
    ensures CalculateBarHeight(bounds, 3.0, 0.2) == 53
  {
    assert ScaledHeight(1.0, 3.0, 800.0) == 800.0 / 3.0;
    assert ScaledHeight(2.5, 3.0, 800.0) == 2000.0 / 3.0;
    assert ScaledHeight(1.2, 3.0, 800.0) == 320.0;
    assert ScaledHeight(0.2, 3.0, 800.0) == 160.0 / 3.0;
  }

  /**
   * The sample's bars: 80 pixels wide, of heights 267, 667, 320 and 53, centred on their ticks
   * and ending one pixel above the x-axis at y = 900, after 9 x-axis and 16 y-axis elements.
   */
  lemma SampleBars()
    ensures var r := Image(CanvasWidth, CanvasHeight, RetrieveGraphData(), AxesOf(RetrieveGraphData(), ScaleCount));
      && r.Ok? && |r.value.children| == 29
      && r.value.children[25..] == [
           Rect(Point(220.0, 632.0), Size(80, 267), Red, None),
           Rect(Point(380.0, 232.0), Size(80, 667), Red, None),
           Rect(Point(540.0, 579.0), Size(80, 320), Red, None),
           Rect(Point(700.0, 846.0), Size(80, 53), Red, None)]
  {
    var data := RetrieveGraphData();
    var axesData := AxesOf(data, ScaleCount);
    SampleAxes();
    YScaleMax(3.0, ScaleCount);
    var bounds := CalculateGraphBounds(CanvasWidth, CanvasHeight);
    var xScale := XOffsets(4, 800.0);
    var agd := AxesGraphicalData(xScale, YOffsets(5, 800.0));
    SampleBarHeights(bounds);
    assert Trunc(160.0) == 160;
    var rects := StaticGraph.BarRects(bounds, data, xScale, 3.0, 80, Red);
    assert rects == [
           Rect(Point(220.0, 632.0), Size(80, 267), Red, None),
           Rect(Point(380.0, 232.0), Size(80, 667), Red, None),
           Rect(Point(540.0, 579.0), Size(80, 320), Red, None),
           Rect(Point(700.0, 846.0), Size(80, 53), Red, None)];
    assert Bars(bounds, data, axesData, agd) == Ok(rects);
    ImageShape(CanvasWidth, CanvasHeight, data);
  }
}
