/**
 * The canvas: an append-only document of drawn elements. Elements are kept as values; turning
 * them into SVG markup is left to the serializer outside this model.
 */
module Svg {
  import opened Outcomes

  /** System.Drawing.PointF. */
  datatype Point = Point(x: real, y: real)

  /** System.Drawing.Size. */
  datatype Size = Size(width: int, height: int)

  /** The System.Drawing colours the charts use. */
  datatype Colour = Black | White | LightGray | Red | Green | Blue | Brown | DarkGray | Pink | Purple

  /** The text of a label: a string, or a number left for the serializer to format. */
  datatype Label = Str(s: string) | Num(v: real)

  /** One drawn element; stroke and fill colours default to black where the drawing call omits them. */
  datatype Element =
    | Line(start: Point, end: Point, stroke: Colour)
    | Text(text: Label, position: Point, fontSize: int, fill: Colour)
    | VerticalText(text: Label, position: Point, fontSize: int, fill: Colour)
    | Rect(position: Point, size: Size, fill: Colour, cssClass: Option<string>)

  /** A snapshot of an SvgDocument: its size and its children in drawing order. */
  datatype SvgDocument = SvgDocument(width: real, height: real, children: seq<Element>)

  /** Cbs.Svg.SvgBuilder: wraps one document and appends one element per drawing call. */
  class SvgBuilder {
    const width: real
    const height: real
    var children: seq<Element>

    /** The document as the builder currently holds it. */
    function Document(): (d: SvgDocument)
      reads this
      ensures d.width == width && d.height == height && d.children == children
    {
      SvgDocument(width, height, children)
    }

    constructor (width: real, height: real)
      ensures this.width == width && this.height == height
      ensures children == []
    {
      this.width := width;
      this.height := height;
      children := [];
    }

    method DrawLine(start: Point, end: Point, colour: Colour := Black)
      modifies this
      ensures children == old(children) + [Line(start, end, colour)]
    {
      children := children + [Line(start, end, colour)];
    }

    method DrawText(text: Label, position: Point, fontSize: int, colour: Colour := Black)
      modifies this
      ensures children == old(children) + [Text(text, position, fontSize, colour)]
    {
      children := children + [Text(text, position, fontSize, colour)];
    }

    method DrawVerticalText(text: Label, position: Point, fontSize: int, colour: Colour := Black)
      modifies this
      ensures children == old(children) + [VerticalText(text, position, fontSize, colour)]
    {
      children := children + [VerticalText(text, position, fontSize, colour)];
    }

    method DrawRect(position: Point, size: Size, colour: Colour)
      modifies this
      ensures children == old(children) + [Rect(position, size, colour, None)]
    {
      children := children + [Rect(position, size, colour, None)];
    }

    /** Appends an element that the caller built (and possibly decorated) itself. */
    method DrawElement(element: Element)
      modifies this
      ensures children == old(children) + [element]
    {
      children := children + [element];
    }
  }
}
