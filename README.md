# Bar-chart layout of svg-graph-builder, in Dafny

svg-graph-builder turns a chart description into an SVG drawing. A chart description is a title, two
axis labels and an ordered list of (category, value) data points. Its core is the bar-chart layout
engine. The engine:

- computes the y-axis scale from the largest value (rounded up, then cut into K equal intervals);
- lists the categories for the x-axis;
- insets a plot rectangle 100 pixels inside the canvas;
- spaces the category ticks and y ticks along the axes;
- sizes each bar from its value's share of the y maximum;
- sends an ordered sequence of draw commands to an append-only canvas.

The repository holds three revisions of this engine, and each is a module of its own here:

| module | source | y divisor K | what it draws |
|---|---|---|---|
| `BarGraph` (+ `GraphBuilderBase`, `Builders`) | graph/BarGraphBuilder.cs, graph/GraphBuilder.cs, graph/GraphBuilderFactory.cs | 5 | y-axis with pips, light-grey gridlines and labels; x-axis with labels; bars tagged `bar` with a white value label; title and axis labels |
| `StaticGraph` | GraphBuilder.cs | 4 | x-axis with labels; y-axis with pips and labels; bars 1 px above the axis |
| `Prototype` | Program.cs | 4 | x-axis with pips and labels; y-axis with pips, black gridlines and labels; red bars 1 px above the axis |

The revisions share some code word for word. That code lives once, in `Layout`:

- the ceiling maximum;
- the y-scale loop, with K as a parameter;
- the category list and the axes data built from it and the y-scale;
- the plot bounds;
- the tick-offset loops and the axes graphical data built from them;
- the bar width and height.

The supporting pieces are modelled as well:

- `Svg` holds the drawing-element values and the append-only `SvgBuilder` canvas class.
- `ColourUtility` holds the bar palette.
- `Configurations` holds the font sizes and default canvas.
- `Graphs` holds the records.
- `Outcomes` holds `Result` and `Outcome`, which stand for the exceptions the code can raise.

How the model is built:

- Every drawing operation is a `method` that appends to the canvas. Its postcondition says the new
  children are the old ones followed by a specification function of the inputs (`YAxisElements`,
  `Bars`, `Image`, ...).
- The loops carry prefix invariants.
- Lemmas then state what those sequences are: element counts, the element at each index, positions,
  order, and the exception raised.
- Pixel quantities are exact `real`s. Casts and divisions are modelled as the C# operators do them:
  `(int)` truncates toward zero (`Numerics.Trunc`), integer `/` truncates (`Numerics.TruncDiv`), and
  `Math.Round` rounds half to even (`Numerics.RoundHalfEven`).
- The random index behind `ColourUtility.RandomColour()` is a parameter `colourIndex`, with the
  range `new Random().Next(0, Count - 1)` can return.

Some behaviour of the code is easy to misread; the model follows the code:

- The y-scale of a maximum of 0 is not `[0]`. The accumulation loop never ends, so that input is a
  precondition.
- A negative maximum gives an empty y-scale. `Max()` in DrawBars then throws
  (`BarGraphProperties.NegativeMaximumFails`).
- Bar height is only non-decreasing in the value, not strictly increasing, because of rounding
  (`Layout.BarHeightNotStrict`: 1.0 and 1.001 out of 3 both give 267 pixels).
- Nothing validates the canvas size. The operations accept any width and height, and only the
  lemmas that need a positive plot ask for one.
- There is no special case for a single y tick. `CalculateYAxisGraphicalData` divides by zero
  there, which is a precondition here. With exact reals, K + 1 >= 2 ticks whenever the maximum is
  positive.
- Errors are the runtime's own exceptions, not a dedicated error taxonomy:
  - `InvalidOperationException` from `Max()` of nothing;
  - `ArgumentOutOfRangeException` from `XScale[0]`;
  - `NotImplementedException` from the factory.

Cbs.Svg/SvgBuilder.cs has neither `DrawVerticalText` nor `DrawElement`, and neither `DrawLine` nor
`DrawText` takes a colour. The final builder calls these at graph/GraphBuilder.cs:57 and
graph/BarGraphBuilder.cs:174,219,223. They are modelled with the same append-one behaviour, and
the colour defaults to black as in Cbs.Svg/SvgDraw.cs:12.

## Model

| member | source | states |
|---|---|---|
| Svg.SvgBuilder.constructor | Cbs.Svg/SvgBuilder.cs:10-17 | the document has the given width and height and no children |
| Svg.SvgBuilder.Document | Cbs.Svg/SvgBuilder.cs:8 | the document carries the builder's fixed size and its children in drawing order |
| Svg.SvgBuilder.DrawLine | Cbs.Svg/SvgBuilder.cs:19-24 | exactly one line is appended after the unchanged existing children, stroked black unless a colour is given |
| Svg.SvgBuilder.DrawText | Cbs.Svg/SvgBuilder.cs:26-31 | exactly one text element at the given position and font size is appended, filled black unless a colour is given |
| Svg.SvgBuilder.DrawVerticalText | Cbs.Svg/SvgDraw.cs:39-54 | exactly one rotated text element at the given position and font size is appended |
| Svg.SvgBuilder.DrawRect | Cbs.Svg/SvgBuilder.cs:33-38 | exactly one rectangle with the given position, size and fill is appended |
| Svg.SvgBuilder.DrawElement | graph/BarGraphBuilder.cs:217-219 | the given element is appended unchanged, after the existing children |
| ColourUtility.StandardColour | Cbs.Svg/ColourUtility.cs:9 | the palette is seven distinct colours: Red, Green, Blue, Brown, DarkGray, Pink, Purple |
| ColourUtility.RandomColour | Cbs.Svg/ColourUtility.cs:11-16 | for any index Next(0, Count - 1) can return, the colour is in the palette and is never Purple |
| ColourUtility.RandomColourChoices | Cbs.Svg/ColourUtility.cs:14 | every palette colour other than Purple is chosen by some index in that range |
| Configurations.Default | Configuration.cs:13-22 | fonts H1 32, H2 24, H3 20, plain 16, strictly decreasing in that order; default canvas 1000 x 1000 |
| Configurations.SetDefaultHeight | Configuration.cs:10 | the DefaultHeight setter changes that field only; the init-only font sizes keep their values |
| Configurations.SetDefaultWidth | Configuration.cs:11 | the DefaultWidth setter changes that field only; the init-only font sizes keep their values |
| Numerics.Ceiling | graph/BarGraphBuilder.cs:40 | MathF.Ceiling: the least integer not below x |
| Numerics.Trunc | graph/BarGraphBuilder.cs:195 | the (int) cast: drops the fraction toward zero, by sign |
| Numerics.TruncDiv | graph/BarGraphBuilder.cs:196 | C# integer division by a positive divisor: quotient truncated toward zero, by sign |
| Numerics.RoundHalfEven | graph/BarGraphBuilder.cs:228 | Math.Round: the result is within 0.5 of x, and an exact half goes to the even neighbour |
| Numerics.RoundOfInteger | graph/BarGraphBuilder.cs:228 | Math.Round leaves whole numbers unchanged |
| Numerics.RoundMonotone | graph/BarGraphBuilder.cs:228 | Math.Round never reverses the order of two values |
| Sequences.MaxOf | graph/BarGraphBuilder.cs:180 | Max() of a non-empty sequence is one of its elements and not below any of them |
| Layout.Ys | graph/BarGraphBuilder.cs:38 | the y values, one per datum, in input order |
| Layout.FindMaxYScale | graph/BarGraphBuilder.cs:36-42 | the maximum is a whole number, at least every y and less than 1 above the largest y: the ceiling of the largest value |
| Layout.CalculateYScaleInterval | graph/BarGraphBuilder.cs:44-49 | K intervals exactly make up the maximum, and the interval has the maximum's sign |
| Layout.CaclculateYAxis | graph/BarGraphBuilder.cs:24-34 | the accumulation loop: no data throws InvalidOperation; otherwise the result is YScale of the ceiling maximum (empty for a negative maximum) |
| Layout.YScaleShape | graph/BarGraphBuilder.cs:24-34 | for a positive maximum: K + 1 points, from 0 to the maximum, evenly spaced by max / K, strictly increasing, all within [0, max] |
| Layout.YScaleKeepsMultiplesUpToMax | graph/BarGraphBuilder.cs:30-31 | the k-th multiple of the interval is on the scale exactly when it does not exceed the maximum |
| Layout.YScaleMax | graph/BarGraphBuilder.cs:180 | Max() of the scale is the maximum itself, the yMax the bars are scaled against |
| Layout.CalculateXAxis | graph/BarGraphBuilder.cs:52 | one label per datum, its x, in input order, with no dedup or sorting |
| Layout.CalculateAxesData | graph/BarGraphBuilder.cs:16-22 | no data throws InvalidOperation; otherwise the category labels and the y-scale with the revision's K (5 here, 4 in GraphBuilder.cs:22-28 and Program.cs:57-74) |
| Layout.CalculateGraphBounds | graph/BarGraphBuilder.cs:69-80 | the plot is inset exactly 100 pixels from the left, right, top and bottom edges of the canvas |
| Layout.CalculateXAxisGraphicalData | graph/BarGraphBuilder.cs:90-102 | the loop i = 1..n yields the offsets i * width / (n + 1) |
| Layout.XOffsetsShape | graph/BarGraphBuilder.cs:90-102 | for a positive width: n offsets, strictly increasing, strictly inside (0, width), one section apart, with equal gaps at both ends |
| Layout.CalculateYAxisGraphicalData | graph/BarGraphBuilder.cs:104-116 | the loop i = 0..m-1 yields the offsets i * height / (m - 1) |
| Layout.YOffsetsShape | graph/BarGraphBuilder.cs:104-116 | for m >= 2: m offsets from 0 to the plot height, evenly spaced, strictly increasing when the height is positive |
| Layout.CalculateAxesGraphicalData | graph/BarGraphBuilder.cs:82-88 | the category and y tick offsets of the plot, as the other revisions compute them inline (GraphBuilder.cs:86-108, Program.cs:98-121) |
| Layout.BarWidth | graph/BarGraphBuilder.cs:195-196 | for a non-negative first offset the width is non-negative, twice it fits in the offset, and it loses less than 2 pixels |
| Layout.CalculateBarHeight | graph/BarGraphBuilder.cs:226-229 | the height is within half a pixel of value / yMax * plot height |
| Layout.BarHeightEnds | graph/BarGraphBuilder.cs:226-229 | the value 0 gives height 0, and the value yMax the full whole-pixel plot height |
| Layout.BarHeightMonotone | graph/BarGraphBuilder.cs:226-229 | for a positive yMax, a larger value never gets a shorter bar |
| Layout.BarHeightNotStrict | graph/BarGraphBuilder.cs:226-229 | two different values can get the same height (1.0 and 1.001 of 3 on a 1000 x 1000 canvas both give 267) |
| GraphBuilderBase.DrawLabels | graph/GraphBuilder.cs:32-37 | exactly three elements are appended: title, x-axis label, y-axis label |
| GraphBuilderBase.DrawTitle | graph/GraphBuilder.cs:39-44 | one H1 text of the title is appended at (OriginX + Width / 2, H1 + 10) |
| GraphBuilderBase.DrawXLabel | graph/GraphBuilder.cs:46-51 | one H2 text of the x-axis label is appended at (OriginX + Width / 2, OriginY + 10 + 2 * H2) |
| GraphBuilderBase.DrawYLabel | graph/GraphBuilder.cs:53-58 | one H2 vertical text of the y-axis label is appended at (H2, OriginX + Width / 2) |
| GraphBuilderBase.LabelPlacement | graph/GraphBuilder.cs:39-58 | title and x-axis label are centred on the canvas; the y-axis label is level with the plot's middle if and only if the canvas is square |
| Builders.Create | graph/GraphBuilderFactory.cs:7-14 | a builder exists if and only if the tag equals "bar" exactly; it holds the given configuration unchanged; any other tag gives NotImplemented |
| Builders.Build | graph/GraphBuilder.cs:17-27 | no data throws InvalidOperation; otherwise the document is the builder's image of the axes data computed once from the graph's data, on a width x height canvas |
| Builders.BuildOutcome | graph/GraphBuilder.cs:17-27 | a positive maximum gives a document of the requested size with 23 + 3n elements; a negative maximum throws InvalidOperation |
| BarGraph.DrawYAxisLine | graph/BarGraphBuilder.cs:159-162 | one black line from the origin up to the top of the plot is appended |
| BarGraph.DrawYAxisScaleElement | graph/BarGraphBuilder.cs:164-176 | appends the tick's pip, its light-grey gridline and its value label, in that order |
| BarGraph.DrawYAxis | graph/BarGraphBuilder.cs:149-157 | appends the axis line and then, tick by tick, the three elements of each tick |
| BarGraph.DrawXAxisLine | graph/BarGraphBuilder.cs:134-137 | one black line from the origin to the right end of the plot is appended |
| BarGraph.DrawXAxisScaleElement | graph/BarGraphBuilder.cs:139-147 | appends only the category label (no pip) at (OriginX + offset, OriginY + 10 + FontSize) |
| BarGraph.DrawXAxis | graph/BarGraphBuilder.cs:124-132 | appends the axis line and then one label per category, in order |
| BarGraph.DrawGraphAxes | graph/BarGraphBuilder.cs:118-122 | the y-axis elements are appended first, then the x-axis elements |
| BarGraph.ConstructCommonBarData | graph/BarGraphBuilder.cs:193-201 | one palette colour per chart, and the bar width trunc(first offset) div 2, which fits twice in the first offset |
| BarGraph.ConstructBarData | graph/BarGraphBuilder.cs:203-211 | a bar keeps the common width and colour, has the rounded height, stands on the x-axis, and is centred on its tick up to integer halving |
| BarGraph.DrawBar | graph/BarGraphBuilder.cs:213-224 | appends the rectangle with class "bar", then the value in white H3 text at (x + width div 2, y + H3) |
| BarGraph.DrawBars | graph/BarGraphBuilder.cs:178-191 | an empty y-scale throws InvalidOperation and an empty x-scale ArgumentOutOfRange, both with nothing drawn; otherwise every bar's two elements are appended in category order |
| BarGraph.BuildGraphImage | graph/BarGraphBuilder.cs:54-67 | the document is the canvas-sized sequence: axes, then bars, then chart labels, or the exception DrawBars raises |
| BarGraphProperties.YAxisElementsAt | graph/BarGraphBuilder.cs:149-176 | the y-axis drawing has 1 + 3m elements; the elements of tick i are its pip, a light-grey gridline across the plot, and its label at (OriginX - 25, OriginY - offset + FontSize div 4) |
| BarGraphProperties.XAxisElementsAt | graph/BarGraphBuilder.cs:124-147 | the x-axis drawing has 1 + n elements; element 1 + i is category i's label at (OriginX + offset, OriginY + 10 + FontSize) |
| BarGraphProperties.BarsElementsAt | graph/BarGraphBuilder.cs:178-224 | the bars have 2n elements; bar i is a rectangle of the common width and colour with the rounded height, on the x-axis and centred on its tick, followed by its white value label |
| BarGraphProperties.ImageShape | graph/BarGraphBuilder.cs:54-67 | for a positive maximum the document has 5 + 3m + 3n elements (m = 6): the y-axis, the x-axis, the bars (two elements per datum, as BarsElements gives them), then the three chart labels |
| BarGraphProperties.NegativeMaximumFails | graph/BarGraphBuilder.cs:180 | data whose maximum rounds up below zero leave an empty y-scale, and Max() throws InvalidOperation |
| StaticGraph.DrawXAxis | GraphBuilder.cs:116-133 | appends the axis line and then only a label per category (the pip is not drawn) |
| StaticGraph.DrawYAxis | GraphBuilder.cs:135-152 | appends the axis line and then a pip and a label per tick (no gridline) |
| StaticGraph.DrawGraphAxes | GraphBuilder.cs:110-114 | the x-axis elements are appended first, then the y-axis elements |
| StaticGraph.DrawBars | GraphBuilder.cs:154-167 | an empty x-scale throws ArgumentOutOfRange and an empty y-scale InvalidOperation, both with nothing drawn; otherwise one rectangle per category in one colour |
| StaticGraph.BuildGraphImage | GraphBuilder.cs:59-71 | the document is the canvas-sized sequence: x-axis, y-axis, then bars, or the exception DrawBars raises |
| StaticGraph.Build | GraphBuilder.cs:12-20 | no data throws InvalidOperation; otherwise the image of the axes data computed from the graph's data |
| StaticGraphProperties.XAxisElementsAt | GraphBuilder.cs:116-133 | the x-axis drawing has 1 + n elements: the axis line across the plot, then for category i only its label at (OriginX + offset, OriginY + 26), since the pip is not drawn |
| StaticGraphProperties.YAxisElementsAt | GraphBuilder.cs:135-152 | the y-axis drawing has 1 + 2m elements; the elements of tick i are its pip and its label at (OriginX - 25, OriginY - offset + 4) |
| StaticGraphProperties.BarRectPlacement | GraphBuilder.cs:162-165 | a bar has the rounded height, is centred on its tick up to integer halving, and its bottom edge is 1 pixel above the x-axis |
| StaticGraphProperties.ImageShape | GraphBuilder.cs:59-71 | for a positive maximum the document has 2 + 2n + 2m elements (m = 5): x-axis, y-axis, then exactly the n rectangles BarRects places, in the chart's one colour, with no title or axis labels |
| StaticGraphProperties.NegativeMaximumFails | GraphBuilder.cs:158 | a maximum that rounds up below zero leaves an empty y-scale, and Max() throws InvalidOperation |
| Prototype.SvgBuilder.constructor | Program.cs:206-213 | the document has the given width and height and no children |
| Prototype.SvgBuilder.Document | Program.cs:204 | the document carries the builder's fixed size and its children in drawing order |
| Prototype.SvgBuilder.DrawLine | Program.cs:215-228 | exactly one black line is appended |
| Prototype.SvgBuilder.DrawText | Program.cs:230-241 | exactly one text element with the default fill is appended |
| Prototype.SvgBuilder.DrawRect | Program.cs:243-255 | exactly one red rectangle is appended |
| Prototype.RetrieveGraphData | Program.cs:46-55 | four data points whose maximum rounds up to 3 |
| Prototype.DrawXAxis | Program.cs:130-147 | appends the axis line and then, per category, a 5-pixel pip down from the axis and the label |
| Prototype.DrawYAxis | Program.cs:149-166 | appends the axis line and then, per tick, a pip, a black gridline across the plot and the label |
| Prototype.DrawGraphAxes | Program.cs:123-127 | the x-axis elements are appended first, then the y-axis elements |
| Prototype.DrawBars | Program.cs:168-180 | an empty x-scale throws ArgumentOutOfRange and an empty y-scale InvalidOperation; otherwise one red rectangle per category, 1 pixel above the axis |
| Prototype.BuildGraphImage | Program.cs:76-96 | the inline bounds are the shared plot bounds, and the document is x-axis, y-axis, then bars, or the exception DrawBars raises |
| Prototype.BuildSampleGraph | Program.cs:30-41 | the sample chart is the image of the sample's axes data on a 1000 x 1000 canvas |
| PrototypeProperties.XAxisElementsAt | Program.cs:130-147 | the x-axis drawing has 1 + 2n elements; category i has its pip from OriginY to OriginY + 5, then its label at OriginY + 26 |
| PrototypeProperties.YAxisElementsAt | Program.cs:149-166 | the y-axis drawing has 1 + 3m elements; tick i has its pip, a black gridline across the plot and its label at (OriginX - 25, OriginY - offset + 4) |
| PrototypeProperties.ImageShape | Program.cs:76-96 | for a positive maximum the document has 2 + 3n + 3m elements (m = 5): x-axis, y-axis, then exactly the n red rectangles BarRects places |
| PrototypeProperties.SampleAxes | Program.cs:48-74 | the sample's y-scale is [0, 0.75, 1.5, 2.25, 3]; its plot is 800 x 800 at (100, 900), with x offsets [160, 320, 480, 640] and y offsets [0, 200, 400, 600, 800] |
| PrototypeProperties.SampleBarHeights | Program.cs:175 | the sample's values 1, 2.5, 1.2 and 0.2 of 3 give bars 267, 667, 320 and 53 pixels high |
| PrototypeProperties.SampleBars | Program.cs:168-180 | the sample chart has 29 elements and ends with four red 80-pixel-wide bars at x 220, 380, 540, 700, each 1 pixel above the axis |

## Left out

- YAML deserialization of chart descriptions (YamlSerialization.cs) is a call into a foreign library.
  It is not part of this model.
- `Program.Main`'s file and console output (`OutputSvg`) is I/O.
- SVG serialization is not modelled. Elements are values: line, text, vertical text and rectangle,
  with their colours. The 2-pixel stroke width, the middle text anchor and the 90-degree rotation are
  attributes of that serialization.
- Number formatting (`float.ToString`) and parsing (`float.Parse(datum.Y.ToString())`) are foreign.
  Data values arrive parsed as reals, and a numeric label is kept as its number (`Label.Num`).
- Single-precision floating point is not modelled. The model uses exact reals, so it has no
  accumulation error in `i += interval` and no overflow of the `(int)` casts.
- The random bar colour: the index `new Random()` would draw is a parameter.
- Layout.CaclculateYAxis: requires that the data be empty or that its maximum not round up to 0. At
  0 the interval is 0 and the source's loop never ends.
- Layout.CalculateYAxisGraphicalData: requires a y-scale other than a single point. With one point
  the source divides by zero and produces NaN offsets.
- BarGraph.DrawBars: requires that Max() of the y-scale not be 0. In the source the bars then divide
  by zero; CalculateAxesData never produces such a scale.
- Layout.BarHeightMonotone: states that height never decreases, not that it strictly increases.
  Rounding makes the strict form false (`Layout.BarHeightNotStrict`).
