/**
 * The rubber-band box drawn while the pointer drags over a zone
 * (`dragBoxTop`/`Left`/`Width`/`Height` of the test page and
 * `selectBoxDimensions` of the multi-select page, which compute the same
 * thing): the rectangle between the press point and the pointer, cut off at
 * the zone's edges.
 */
module SelectBox {
  import opened Geometry

  /** `v` moved into `[lo, hi]`. */
  function Clamp(v: int, lo: int, hi: int): (r: int)
    ensures lo <= hi ==> lo <= r <= hi
    ensures lo <= v <= hi ==> r == v
  {
    Max(lo, Min(v, hi))
  }

  /** Whether `p` lies in `zone`, edges included. */
  predicate Inside(zone: Rect, p: Point) {
    zone.x <= p.x <= zone.Right() && zone.y <= p.y <= zone.Bottom()
  }

  /** `top`: the upper of the two vertical positions, but never above the zone. */
  function Top(start: Point, current: Point, zone: Rect): (r: int)
    ensures r >= zone.y && r >= Min(start.y, current.y)
    ensures r == zone.y || r == Min(start.y, current.y)
  {
    if start.y > current.y then Max(current.y, zone.y) else Max(start.y, zone.y)
  }

  /** `left`: the leftmost of the two horizontal positions, but never left of the zone. */
  function Left(start: Point, current: Point, zone: Rect): (r: int)
    ensures r >= zone.x && r >= Min(start.x, current.x)
    ensures r == zone.x || r == Min(start.x, current.x)
  {
    if start.x > current.x then Max(current.x, zone.x) else Max(start.x, zone.x)
  }

  /**
   * `height`: with the pointer level with the zone, the vertical distance
   * dragged; with the press inside the zone, the length of the dragged
   * span once both ends are moved into the zone.
   */
  function Height(start: Point, current: Point, zone: Rect): (r: int)
    ensures zone.y <= current.y <= zone.Bottom() ==> r == Abs(current.y - start.y)
    ensures zone.y <= start.y <= zone.Bottom() ==>
      r == Clamp(Max(start.y, current.y), zone.y, zone.Bottom()) - Clamp(Min(start.y, current.y), zone.y, zone.Bottom())
  {
    if current.y < zone.y then start.y - zone.y
    else if current.y > zone.Bottom() then zone.Bottom() - start.y
    else Abs(current.y - start.y)
  }

  /** `width`: as `Height`, on the horizontal axis. */
  function Width(start: Point, current: Point, zone: Rect): (r: int)
    ensures zone.x <= current.x <= zone.Right() ==> r == Abs(current.x - start.x)
    ensures zone.x <= start.x <= zone.Right() ==>
      r == Clamp(Max(start.x, current.x), zone.x, zone.Right()) - Clamp(Min(start.x, current.x), zone.x, zone.Right())
  {
    if current.x < zone.x then start.x - zone.x
    else if current.x > zone.Right() then zone.Right() - start.x
    else Abs(current.x - start.x)
  }

  /** The box as the page styles it: `left`, `top`, `width`, `height`. */
  function Box(start: Point, current: Point, zone: Rect): Rect {
    Rect(Left(start, current, zone), Top(start, current, zone), Width(start, current, zone), Height(start, current, zone))
  }

  /**
   * With the pointer beyond an edge of the zone, the box reaches from the
   * press point to that edge (a laid-out zone has no negative size).
   */
  lemma PointerBeyondEdge(start: Point, current: Point, zone: Rect)
    requires zone.width >= 0 && zone.height >= 0
    ensures current.y < zone.y ==> Height(start, current, zone) == start.y - zone.y
    ensures current.y > zone.Bottom() ==> Height(start, current, zone) == zone.Bottom() - start.y
    ensures current.x < zone.x ==> Width(start, current, zone) == start.x - zone.x
    ensures current.x > zone.Right() ==> Width(start, current, zone) == zone.Right() - start.x
  {
  }

  /**
   * For a press inside the zone, the box is exactly the rectangle spanned
   * by the press point and the pointer, each coordinate moved into the zone;
   * in particular it never leaves the zone and has no negative size.
   */
  lemma BoxIsClampedSpan(start: Point, current: Point, zone: Rect)
    ensures var b := Box(start, current, zone);
      Inside(zone, start) ==>
      && b.x == Clamp(Min(start.x, current.x), zone.x, zone.Right())
      && b.Right() == Clamp(Max(start.x, current.x), zone.x, zone.Right())
      && b.y == Clamp(Min(start.y, current.y), zone.y, zone.Bottom())
      && b.Bottom() == Clamp(Max(start.y, current.y), zone.y, zone.Bottom())
    ensures var b := Box(start, current, zone);
      Inside(zone, start) ==>
      && zone.x <= b.x <= b.Right() <= zone.Right()
      && zone.y <= b.y <= b.Bottom() <= zone.Bottom()
  {
  }
}
