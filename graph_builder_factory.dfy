/**
 * The public entry points: a chart builder chosen by its type tag, and the template Build that
 * computes the axes data once and hands it to the chosen builder's image construction.
 */
module Builders {
  import opened Outcomes
  import opened Svg
  import opened Graphs
  import opened Configurations
  import opened ColourUtility
  import opened Layout
  import BarGraph
  import BarGraphProperties

  /** A chart builder; its only state is the configuration it was created with, never reassigned. */
  datatype GraphBuilder = BarGraphBuilder(configuration: Configuration)

  /** GraphBuilderFactory.Create: exactly the tag "bar" (case-sensitive, untrimmed) has a builder. */
  function Create(graphType: string, configuration: Configuration): (r: Result<GraphBuilder>)
    ensures r.Ok? <==> graphType == "bar"
    ensures r.Ok? ==> r.value == BarGraphBuilder(configuration)
    ensures r.Err? ==> r.error == NotImplemented
  {
    match graphType
    case "bar" => Ok(BarGraphBuilder(configuration))
    case _ => Err(NotImplemented)
  }

  /**
   * GraphBuilder.Build: Max over no data throws; otherwise the document is the chosen builder's
   * image of the axes data computed from the graph's data. colourIndex stands for the random
   * draw the bar colour is chosen with. When the largest value rounds up to 0 the y-scale loop
   * of the source never ends, so that input is excluded.
   */
  method Build(builder: GraphBuilder, width: int, height: int, graph: Graph, colourIndex: nat) returns (r: Result<SvgDocument>)
    requires colourIndex < |StandardColour()| - 1
    requires graph.data == [] || FindMaxYScale(graph.data) != 0.0
    ensures graph.data == [] ==> r == Err(InvalidOperation)
    ensures graph.data != [] ==> ImageBuildable(graph.data, AxesOf(graph.data, BarGraph.ScaleCount))
    ensures graph.data != [] ==>
      r == BarGraph.Image(builder.configuration, width, height, graph, AxesOf(graph.data, BarGraph.ScaleCount), colourIndex)
  {
    var axesData := CalculateAxesData(graph.data, BarGraph.ScaleCount);
    if axesData.Err? {
      return Err(axesData.error);
    }
    if FindMaxYScale(graph.data) > 0.0 {
      BarGraphProperties.ImageShape(builder.configuration, width, height, graph, colourIndex);
    } else {
      BarGraphProperties.NegativeMaximumFails(builder.configuration, width, height, graph, colourIndex);
    }
    match builder
    case BarGraphBuilder(configuration) =>
      r := BarGraph.BuildGraphImage(configuration, width, height, graph, axesData.value, colourIndex);
  }

  /** Build end to end: a drawn chart has 23 + 3n elements on the requested canvas; a negative maximum throws. */
  lemma BuildOutcome(builder: GraphBuilder, width: int, height: int, graph: Graph, colourIndex: nat)
    requires colourIndex < |StandardColour()| - 1
    requires graph.data != [] && FindMaxYScale(graph.data) != 0.0
    ensures var r := BarGraph.Image(builder.configuration, width, height, graph, AxesOf(graph.data, BarGraph.ScaleCount), colourIndex);
      && (FindMaxYScale(graph.data) > 0.0 ==>
            r.Ok? && r.value.width == width as real && r.value.height == height as real
            && |r.value.children| == 23 + 3 * |graph.data|)
      && (FindMaxYScale(graph.data) < 0.0 ==> r == Err(InvalidOperation))
  {
    if FindMaxYScale(graph.data) > 0.0 {
      BarGraphProperties.ImageShape(builder.configuration, width, height, graph, colourIndex);
    } else {
      BarGraphProperties.NegativeMaximumFails(builder.configuration, width, height, graph, colourIndex);
    }
  }
}
