/** Map points as the pages store them: `[lat, lng]` pairs of numbers. */
module Geo {
  /** A route point `[lat, lng]`. Parsing typed text into numbers is not modelled. */
  datatype Point = Point(lat: real, lng: real)
}
