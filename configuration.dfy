/** The configuration record: font sizes and the default canvas size. */
module Configurations {

  /** Font sizes are init-only; only the default canvas size has setters. */
  datatype Configuration = Configuration(
    fontSize: int,
    h1FontSize: int,
    h2FontSize: int,
    h3FontSize: int,
    defaultHeight: int,
    defaultWidth: int)

  /** Configuration.Default(): fonts decrease from the title down to plain text, on a 1000 x 1000 canvas. */
  function Default(): (c: Configuration)
    ensures c.h1FontSize == 32 && c.h2FontSize == 24 && c.h3FontSize == 20 && c.fontSize == 16
    ensures c.h1FontSize > c.h2FontSize > c.h3FontSize > c.fontSize > 0
    ensures c.defaultWidth == 1000 && c.defaultHeight == 1000
  {
    Configuration(
      fontSize := 16,
      h1FontSize := 32,
      h2FontSize := 24,
      h3FontSize := 20,
      defaultHeight := 1000,
      defaultWidth := 1000)
  }

  /** The DefaultHeight setter: changes that field and no other. */
  function SetDefaultHeight(c: Configuration, height: int): (r: Configuration)
    ensures r.defaultHeight == height && r.defaultWidth == c.defaultWidth
    ensures r.fontSize == c.fontSize && r.h1FontSize == c.h1FontSize
    ensures r.h2FontSize == c.h2FontSize && r.h3FontSize == c.h3FontSize
  {
    c.(defaultHeight := height)
  }

  /** The DefaultWidth setter: changes that field and no other. */
  function SetDefaultWidth(c: Configuration, width: int): (r: Configuration)
    ensures r.defaultWidth == width && r.defaultHeight == c.defaultHeight
    ensures r.fontSize == c.fontSize && r.h1FontSize == c.h1FontSize
    ensures r.h2FontSize == c.h2FontSize && r.h3FontSize == c.h3FontSize
  {
    c.(defaultWidth := width)
  }
}
