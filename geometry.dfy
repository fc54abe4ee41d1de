/**
 * Viewport geometry of the drag pages: pointer positions, the rectangles that
 * `getBoundingClientRect` reports, and the arithmetic done on them.
 * Coordinates are integers; the browser's are floating point.
 */
module Geometry {

  /** A viewport position, `{ x, y }` in the source. */
  datatype Point = Point(x: int, y: int)

  /** A bounding rectangle: top-left corner and size, as a `DOMRect`. */
  datatype Rect = Rect(x: int, y: int, width: int, height: int) {
    /** `DOMRect.right`, for a non-negative width. */
    function Right(): int { x + width }
    /** `DOMRect.bottom`, for a non-negative height. */
    function Bottom(): int { y + height }
  }

  /** `Math.max`. */
  function Max(a: int, b: int): (r: int)
    ensures r >= a && r >= b && (r == a || r == b)
  {
    if a >= b then a else b
  }

  /** `Math.min`. */
  function Min(a: int, b: int): (r: int)
    ensures r <= a && r <= b && (r == a || r == b)
  {
    if a <= b then a else b
  }

  /** `Math.abs`. */
  function Abs(a: int): (r: int)
    ensures r >= 0 && (r == a || r == -a)
  {
    if a < 0 then -a else a
  }

  /**
   * Where a point that started at `p` ends up when it follows the pointer
   * from `from` to `to`: `p + (to - from)` on each axis.
   */
  function Offset(p: Point, from: Point, to: Point): (r: Point)
    ensures r.x - p.x == to.x - from.x && r.y - p.y == to.y - from.y
  {
    Point(p.x + (to.x - from.x), p.y + (to.y - from.y))
  }

  /** While the pointer is at the press point, the point stays where it started. */
  lemma OffsetAtPress(p: Point, a: Point)
    ensures Offset(p, a, a) == p
  {
  }

  /**
   * The overlap test of `checkIntersection`: the two rectangles overlap
   * strictly on both axes.
   */
  predicate Overlaps(selection: Rect, element: Rect) {
    && selection.x < element.x + element.width
    && selection.x + selection.width > element.x
    && selection.y < element.y + element.height
    && selection.y + selection.height > element.y
  }

  /** Whether `p` lies in `r`, left and top edges included, right and bottom excluded. */
  predicate Covers(r: Rect, p: Point) {
    r.x <= p.x < r.Right() && r.y <= p.y < r.Bottom()
  }

  /** The overlap test does not depend on which rectangle is the selection. */
  lemma OverlapsSymmetric(a: Rect, b: Rect)
    ensures Overlaps(a, b) <==> Overlaps(b, a)
  {
  }

  /** Rectangles that only share an edge do not overlap. */
  lemma TouchingDoesNotOverlap(a: Rect, b: Rect)
    requires a.Right() == b.x || b.Right() == a.x || a.Bottom() == b.y || b.Bottom() == a.y
    ensures !Overlaps(a, b)
  {
  }

  /**
   * For rectangles that are not empty, the test holds exactly when some
   * position lies in both.
   */
  lemma OverlapsIffSharedPoint(a: Rect, b: Rect)
    requires a.width > 0 && a.height > 0 && b.width > 0 && b.height > 0
    ensures Overlaps(a, b) <==> exists p :: Covers(a, p) && Covers(b, p)
  {
    if Overlaps(a, b) {
      var p := Point(Max(a.x, b.x), Max(a.y, b.y));
      assert Covers(a, p) && Covers(b, p);
    }
  }
}
