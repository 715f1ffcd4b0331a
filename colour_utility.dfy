/** Cbs.Svg.ColourUtility: the bar palette and the choice of one colour from it. */
module ColourUtility {
  import opened Svg

  /** The palette, in order; a fresh list on every call, so choosing from it changes nothing shared. */
  function StandardColour(): (palette: seq<Colour>)
    ensures |palette| == 7
    ensures forall i, j :: 0 <= i < j < |palette| ==> palette[i] != palette[j]
  {
    [Red, Green, Blue, Brown, DarkGray, Pink, Purple]
  }

  /**
   * The colour at the index drawn by new Random().Next(0, Count - 1). The upper bound of Next is
   * exclusive, so the index never reaches the last palette entry.
   */
  function RandomColour(index: nat): (c: Colour)
    requires index < |StandardColour()| - 1
    ensures c in StandardColour()
    ensures c != Purple
  {
    StandardColour()[index]
  }

  /** Every palette colour except the last one can be chosen. */
  lemma RandomColourChoices(c: Colour)
    requires c in StandardColour() && c != Purple
    ensures exists index: nat :: index < |StandardColour()| - 1 && RandomColour(index) == c
  {
    var palette := StandardColour();
    var k :| 0 <= k < |palette| && palette[k] == c;
    assert k < |palette| - 1;
    assert RandomColour(k) == c;
  }
}
