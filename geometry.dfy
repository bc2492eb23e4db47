/**
 * Geometry helpers over the platform's POINT, SIZE and RECT records
 * (winchroma.h, GEOMETRY UTILS). Coordinates are unbounded integers; the
 * platform's 32-bit LONG range is not enforced here.
 */
module Geometry {

  datatype Point = Point(x: int, y: int)
  datatype Size = Size(cx: int, cy: int)
  /** A rectangle given by its left/top corner and its right/bottom edges. */
  datatype Rect = Rect(left: int, top: int, right: int, bottom: int)

  /** POINT `==`: field-wise comparison, which is value equality. */
  function PointEq(a: Point, b: Point): (r: bool)
    ensures r <==> a == b
  {
    a.x == b.x && a.y == b.y
  }

  /** POINT `!=`: defined as the negation of `==`. */
  function PointNe(a: Point, b: Point): (r: bool)
    ensures r <==> a != b
  {
    !PointEq(a, b)
  }

  /** SIZE `==`: field-wise comparison, which is value equality. */
  function SizeEq(a: Size, b: Size): (r: bool)
    ensures r <==> a == b
  {
    a.cx == b.cx && a.cy == b.cy
  }

  /** SIZE `!=`: defined as the negation of `==`. */
  function SizeNe(a: Size, b: Size): (r: bool)
    ensures r <==> a != b
  {
    !SizeEq(a, b)
  }

  /** The right edge lies the width past the left edge. */
  function RectWidth(rect: Rect): (w: int)
    ensures rect.left + w == rect.right
    ensures w >= 0 <==> rect.left <= rect.right
  {
    rect.right - rect.left
  }

  /** The bottom edge lies the height below the top edge. */
  function RectHeight(rect: Rect): (h: int)
    ensures rect.top + h == rect.bottom
    ensures h >= 0 <==> rect.top <= rect.bottom
  {
    rect.bottom - rect.top
  }

  /** The size that, placed at the rectangle's top-left corner, spans the rectangle. */
  function RectSize(rect: Rect): (s: Size)
    ensures Rect(rect.left, rect.top, rect.left + s.cx, rect.top + s.cy) == rect
  {
    Size(RectWidth(rect), RectHeight(rect))
  }

  /** The top-left corner of a rectangle. */
  function TopLeft(rect: Rect): Point
  {
    Point(rect.left, rect.top)
  }

  /**
   * The rectangle with the given top-left corner and size. The header's
   * default argument `size = {}` is `MakeRect(p, Size(0, 0))`.
   */
  function MakeRect(topLeft: Point, size: Size): (r: Rect)
    ensures TopLeft(r) == topLeft
    ensures RectWidth(r) == size.cx && RectHeight(r) == size.cy
    ensures RectSize(r) == size
  {
    Rect(topLeft.x, topLeft.y, topLeft.x + size.cx, topLeft.y + size.cy)
  }

  /** The other half of the round trip: a rectangle is rebuilt from its corner and its size. */
  lemma MakeRectFromParts(rect: Rect)
    ensures MakeRect(TopLeft(rect), RectSize(rect)) == rect
  {
  }
}
