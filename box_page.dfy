/**
 * The single-box test page: a box that follows the pointer while dragged,
 * and a zone in which pressing and dragging draws a rubber-band box.
 */
module BoxPage {
  import opened Geometry
  import SelectBox

  /** `DraggableBox`: its four signals and its mouse handlers. */
  class DraggableBox {
    var position: Point
    var initialPosition: Point
    var initialMousePosition: Point
    var isDragging: bool

    constructor ()
      ensures position == Point(0, 0) && initialPosition == Point(0, 0)
      ensures initialMousePosition == Point(0, 0) && !isDragging
    {
      position := Point(0, 0);
      initialPosition := Point(0, 0);
      initialMousePosition := Point(0, 0);
      isDragging := false;
    }

    /**
     * `handleMouseDown`: start a drag, remembering the press point and where
     * the box is (`bounds` is the box's bounding rectangle). The box itself
     * does not move yet.
     */
    method HandleMouseDown(clientX: int, clientY: int, bounds: Rect)
      modifies this
      ensures isDragging
      ensures initialMousePosition == Point(clientX, clientY)
      ensures initialPosition == Point(bounds.x, bounds.y)
      ensures position == old(position)
    {
      isDragging := true;
      initialMousePosition := Point(clientX, clientY);
      initialPosition := Point(bounds.x, bounds.y);
    }

    /** `handleMouseMove`: the box follows the pointer's travel since the press. */
    method HandleMouseMove(clientX: int, clientY: int)
      modifies this
      ensures position.x == initialPosition.x + (clientX - initialMousePosition.x)
      ensures position.y == initialPosition.y + (clientY - initialMousePosition.y)
      ensures initialPosition == old(initialPosition) && initialMousePosition == old(initialMousePosition)
      ensures isDragging == old(isDragging)
    {
      position := Offset(initialPosition, initialMousePosition, Point(clientX, clientY));
    }

    /** `handleMouseUp`: end the drag; the box stays where it is. */
    method HandleMouseUp()
      modifies this
      ensures !isDragging
      ensures position == old(position) && initialPosition == old(initialPosition)
      ensures initialMousePosition == old(initialMousePosition)
    {
      isDragging := false;
    }
  }

  /** `TestPage`: the rubber-band zone's signals and mouse handlers. */
  class TestPage {
    var initialPosition: Point
    var activePosition: Point
    var isDragging: bool

    constructor ()
      ensures initialPosition == Point(0, 0) && activePosition == Point(0, 0) && !isDragging
    {
      initialPosition := Point(0, 0);
      activePosition := Point(0, 0);
      isDragging := false;
    }

    /**
     * `handleMouseDown`: a press already handled by a box changes nothing;
     * otherwise a rubber band starts at the press point.
     */
    method HandleMouseDown(defaultPrevented: bool, clientX: int, clientY: int)
      modifies this
      ensures defaultPrevented ==> unchanged(this)
      ensures !defaultPrevented ==>
        isDragging && initialPosition == Point(clientX, clientY) && activePosition == Point(clientX, clientY)
    {
      if defaultPrevented {
        return;
      }
      isDragging := true;
      activePosition := Point(0, 0);
      initialPosition := Point(clientX, clientY);
      activePosition := Point(clientX, clientY);
    }

    /** `handleMouseMove`: track the pointer. */
    method HandleMouseMove(clientX: int, clientY: int)
      modifies this
      ensures activePosition == Point(clientX, clientY)
      ensures initialPosition == old(initialPosition) && isDragging == old(isDragging)
    {
      activePosition := Point(clientX, clientY);
    }

    /** `handleMouseUp`: the band disappears. */
    method HandleMouseUp()
      modifies this
      ensures !isDragging
      ensures initialPosition == old(initialPosition) && activePosition == old(activePosition)
    {
      isDragging := false;
    }

    /**
     * The band as `dragBoxTop`, `dragBoxLeft`, `dragBoxWidth` and
     * `dragBoxHeight` place it; for a press inside the zone it stays inside.
     */
    function DragBox(zone: Rect): (r: Rect)
      reads this
      ensures SelectBox.Inside(zone, initialPosition) ==>
        zone.x <= r.x <= r.Right() <= zone.Right() && zone.y <= r.y <= r.Bottom() <= zone.Bottom()
    {
      SelectBox.BoxIsClampedSpan(initialPosition, activePosition, zone);
      SelectBox.Box(initialPosition, activePosition, zone)
    }
  }
}
