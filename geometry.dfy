/**
  Core Graphics values used by the panel containers: points, sizes and
  rectangles over `real` (the source's `nfloat`).
*/
module Geometry {

  function Abs(v: real): (r: real)
    ensures r >= 0.0 && (r == v || r == -v)
  {
    if v < 0.0 then -v else v
  }

  datatype Point = Point(x: real, y: real)

  datatype Size = Size(width: real, height: real) {
    /** The same size with width and height exchanged. */
    function Transposed(): Size {
      Size(height, width)
    }
  }

  /** A `CGRect`: origin (x, y) and size. */
  datatype Rect = Rect(x: real, y: real, width: real, height: real) {

    /** The X of the right edge and the Y of the bottom edge. */
    function Right(): real { x + width }
    function Bottom(): real { y + height }

    /**
      `CGRect.Contains(point)`, read as comparing the point with the
      origin and with origin plus size: the test is half-open, so the left
      and top edges belong to the rectangle and the right and bottom edges
      do not. A rectangle of negative width or height contains no point.
    */
    predicate Contains(p: Point) {
      x <= p.x < Right() && y <= p.y < Bottom()
    }

    /** The same rectangle with the roles of the two axes exchanged. */
    function Transposed(): Rect {
      Rect(y, x, height, width)
    }
  }

  /** A point on a rectangle's right or bottom edge is never contained in it. */
  lemma ContainsIsHalfOpen(r: Rect, y: real)
    requires r.width > 0.0 && r.y <= y < r.Bottom()
    ensures r.Contains(Point(r.x, y))
    ensures !r.Contains(Point(r.x + r.width, y))
  {
  }
}
