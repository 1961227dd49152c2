/** Points of the drawing plane, always with three components. */
module Geometry {

  /** A coordinate triple; the source's 3-tuples of floats, here exact reals. */
  datatype Point = Point(x: real, y: real, z: real)

  const Origin: Point := Point(0.0, 0.0, 0.0)
}
