/** The `lat,lng` text that map links carry, as a query value. */
module PointText {
  import opened Wrappers
  import opened Js
  import opened Url

  /** A numeric point's text needs no escaping in a query, and splits back at its comma. */
  lemma PointTextSplits(c: Coord)
    requires NumericCoord(c)
    ensures Plain(LatLngText(c))
    ensures SplitFirst(LatLngText(c), ',') == Some((Text(c.lat), Text(c.lng)))
  {
    NumeralHasNoDelimiter(c.lat.text);
    NumeralHasNoDelimiter(c.lng.text);
    SplitFirstOf(Text(c.lat), Text(c.lng), ',');
  }
}
