/** Screen coordinates and velocities, as exact reals (no IEEE rounding). */
module Geometry {
  /** A pair of screen coordinates in pixels, or a velocity in pixels per millisecond. */
  datatype Vec = Vec(x: real, y: real)

  function Abs(a: real): (r: real)
    ensures r >= 0.0 && (r == a || r == -a)
  {
    if a < 0.0 then -a else a
  }

  function Max(a: real, b: real): (r: real)
    ensures r >= a && r >= b && (r == a || r == b)
  {
    if a < b then b else a
  }
}
