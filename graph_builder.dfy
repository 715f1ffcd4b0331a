/** The chart-level labels that the GraphBuilder base class draws for every chart kind. */
module GraphBuilderBase {
  import opened Svg
  import opened Graphs
  import opened Configurations
  import opened Layout

  /** The title, in the H1 font, centred over the plot near the top of the canvas. */
  function TitleElement(configuration: Configuration, bounds: GraphBounds, title: string): Element
  {
    var fontSize := configuration.h1FontSize;
    Text(Str(title), Point(bounds.originX + bounds.width / 2.0, (fontSize + 10) as real), fontSize, Black)
  }

  /** The x-axis label, in the H2 font, centred under the plot. */
  function XLabelElement(configuration: Configuration, bounds: GraphBounds, xAxisLabel: string): Element
  {
    var fontSize := configuration.h2FontSize;
    Text(Str(xAxisLabel), Point(bounds.originX + bounds.width / 2.0, bounds.originY + 10.0 + (fontSize * 2) as real), fontSize, Black)
  }

  /** The y-axis label, vertical, in the H2 font; its y coordinate is the plot's horizontal centre. */
  function YLabelElement(configuration: Configuration, bounds: GraphBounds, yAxisLabel: string): Element
  {
    var fontSize := configuration.h2FontSize;
    VerticalText(Str(yAxisLabel), Point(fontSize as real, bounds.originX + bounds.width / 2.0), fontSize, Black)
  }

  /** The three chart labels in drawing order. */
  function LabelElements(configuration: Configuration, bounds: GraphBounds, graph: Graph): seq<Element>
  {
    [TitleElement(configuration, bounds, graph.title),
     XLabelElement(configuration, bounds, graph.xAxisLabel),
     YLabelElement(configuration, bounds, graph.yAxisLabel)]
  }

  method DrawLabels(configuration: Configuration, builder: SvgBuilder, bounds: GraphBounds, graph: Graph)
    modifies builder
    ensures builder.children == old(builder.children) + LabelElements(configuration, bounds, graph)
  {
    DrawTitle(configuration, builder, bounds, graph.title);
    DrawXLabel(configuration, builder, bounds, graph.xAxisLabel);
    DrawYLabel(configuration, builder, bounds, graph.yAxisLabel);
  }

  method DrawTitle(configuration: Configuration, builder: SvgBuilder, bounds: GraphBounds, title: string)
    modifies builder
    ensures builder.children == old(builder.children) + [TitleElement(configuration, bounds, title)]
  {
    var fontSize := configuration.h1FontSize;
    var position := Point(bounds.originX + bounds.width / 2.0, (fontSize + 10) as real);
    builder.DrawText(Str(title), position, fontSize);
  }

  method DrawXLabel(configuration: Configuration, builder: SvgBuilder, bounds: GraphBounds, xAxisLabel: string)
    modifies builder
    ensures builder.children == old(builder.children) + [XLabelElement(configuration, bounds, xAxisLabel)]
  {
    var fontSize := configuration.h2FontSize;
    var position := Point(bounds.originX + bounds.width / 2.0, bounds.originY + 10.0 + (fontSize * 2) as real);
    builder.DrawText(Str(xAxisLabel), position, fontSize);
  }

  method DrawYLabel(configuration: Configuration, builder: SvgBuilder, bounds: GraphBounds, yAxisLabel: string)
    modifies builder
    ensures builder.children == old(builder.children) + [YLabelElement(configuration, bounds, yAxisLabel)]
  {
    var fontSize := configuration.h2FontSize;
    var position := Point(fontSize as real, bounds.originX + bounds.width / 2.0);
    builder.DrawVerticalText(Str(yAxisLabel), position, fontSize);
  }

  /**
   * On the bounds of a width x height canvas, the title and the x-axis label are centred on the
   * canvas horizontally, the title sits H1 + 10 pixels from the top and the x-axis label
   * 10 + 2 * H2 pixels below the x-axis; the y-axis label is level with the middle of the plot
   * exactly when the canvas is square.
   */
  lemma LabelPlacement(configuration: Configuration, width: int, height: int, graph: Graph)
    ensures var bounds := CalculateGraphBounds(width, height);
      var labels := LabelElements(configuration, bounds, graph);
      && |labels| == 3
      && labels[0].Text? && labels[0].text == Str(graph.title) && labels[0].fontSize == configuration.h1FontSize
      && labels[0].position == Point(width as real / 2.0, (configuration.h1FontSize + 10) as real)
      && labels[1].Text? && labels[1].text == Str(graph.xAxisLabel) && labels[1].fontSize == configuration.h2FontSize
      && labels[1].position.x == width as real / 2.0
      && labels[1].position.y - bounds.originY == 10.0 + (2 * configuration.h2FontSize) as real
      && labels[2].VerticalText? && labels[2].text == Str(graph.yAxisLabel)
      && labels[2].position.x == configuration.h2FontSize as real
      && (labels[2].position.y == bounds.originY - bounds.height / 2.0 <==> width == height)
  {
  }
}
