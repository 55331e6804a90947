/**
 * JavaScript values as the screens observe them.
 *
 * The client never does arithmetic on latitudes, longitudes or distances: it only tests
 * them for truthiness and interpolates them into strings. A JavaScript number is therefore
 * represented by its canonical `String(x)` rendering. This is exact for truthiness,
 * because the falsy numbers are 0, -0 and NaN, and `String(-0)` is "0".
 */
module Js {

  /** A field that holds a number, or is undefined or null. */
  datatype Num = Undefined | Null | Number(text: string)

  /** A latitude/longitude pair, as `{ lat, lng }`. */
  datatype Coord = Coord(lat: Num, lng: Num)

  /**
   * How a device location request ends: the platform has no geolocation API, the position
   * callback runs with a coordinate, or the error callback runs (denied, unavailable, timed out).
   */
  datatype GeoOutcome = Unsupported | Position(coord: Coord) | PositionError

  /** JavaScript truthiness of a numeric field. */
  predicate Truthy(n: Num) {
    n.Number? && n.text != "0" && n.text != "NaN"
  }

  /** What a template literal `${n}` produces. */
  function Text(n: Num): string {
    match n
    case Undefined => "undefined"
    case Null => "null"
    case Number(t) => t
  }

  /** A character that can occur in the rendering of a JavaScript number. */
  predicate NumeralChar(c: char) {
    ('0' <= c <= '9') || c in ".-+eINanfity"
  }

  /** The rendering of a number: non-empty, made of numeral characters only. */
  predicate Numeral(t: string) {
    |t| > 0 && forall i :: 0 <= i < |t| ==> NumeralChar(t[i])
  }

  /** A coordinate whose two components are numbers. */
  predicate NumericCoord(c: Coord) {
    c.lat.Number? && c.lng.Number? && Numeral(c.lat.text) && Numeral(c.lng.text)
  }

  /** The text `lat,lng` that every map link of the application carries. */
  function LatLngText(c: Coord): (r: string)
    ensures |r| == |Text(c.lat)| + 1 + |Text(c.lng)|
    ensures r[|Text(c.lat)|] == ','
  {
    Text(c.lat) + "," + Text(c.lng)
  }

  /** The delimiters of a URL never occur in a number's rendering. */
  lemma NumeralHasNoDelimiter(t: string)
    requires Numeral(t)
    ensures ',' !in t && '&' !in t && '=' !in t && '?' !in t
  {
  }
}
