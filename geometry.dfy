/**
 * Plane geometry used by the configuration spaces: points, circles and
 * segments, with the math library and the shape library's circle/segment
 * test left uninterpreted.
 */
module Geometry {
  datatype Point = Point(x: real, y: real)

  datatype Circle = Circle(center: Point, radius: real)

  /** A segment from `start` to `end` (one link of an arm, or one step of its end effector). */
  datatype Line = Line(start: Point, end: Point)

  /** The value of M_PI. */
  const Pi: real := 3.14159265358979323846

  /** cosf, sinf and atan2f of the C library: uninterpreted. */
  const Cos: real -> real
  const Sin: real -> real
  const Atan2: (real, real) -> real

  /** The shape library's `intersect(circle *, line *)`: uninterpreted. */
  const Intersect: (Circle, Line) -> bool

  /** Any drawable shape of the shape library, and its `shape_circle::intersects_with`. */
  type Shape
  const CircleHitsShape: (Circle, Shape) -> bool
}
