/** The records the layout consumes and produces. */
module Graphs {
  import opened Svg

  /** One data point: a category label and its already-parsed value. */
  datatype GraphDatum = GraphDatum(x: string, y: real)

  /** One chart description; the order of data is the category order on the x-axis. */
  datatype Graph = Graph(graphType: string, title: string, xAxisLabel: string, yAxisLabel: string, data: seq<GraphDatum>)

  /** The plot rectangle: its bottom-left corner in canvas pixels, and its size. */
  datatype GraphBounds = GraphBounds(originX: real, originY: real, height: real, width: real)

  /** The rectangle and colour of one bar. */
  datatype BarGraphicsData = BarGraphicsData(x: real, y: real, barWidth: int, barHeight: int, colour: Colour)

  /** The category labels and the y-scale values. */
  datatype AxesData = AxesData(xAxisPoints: seq<string>, yAxisPoints: seq<real>)

  /** Pixel offsets from the origin of each category tick and each y-scale tick. */
  datatype AxesGraphicalData = AxesGraphicalData(xScale: seq<real>, yScale: seq<real>)
}
