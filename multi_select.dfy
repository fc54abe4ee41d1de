/**
 * The multi-select drag page: a store of draggable elements and the ordered
 * list of selected ids, elements that drag the whole selection along with the
 * pointer, and a zone in which a rubber band selects every element it overlaps.
 */
module MultiSelect {
  import opened Wrappers
  import opened Seqs
  import opened Geometry
  import SelectBox

  /** `DraggableState` without its element ref; rectangles are passed in where needed. */
  datatype Element = Element(id: string, position: Point, dragStartPosition: Point)

  /** The two errors the selection operations throw. */
  datatype SelectionError = AlreadySelected | NotSelected

  /** The selection after `selectElement(x)`, or the error it throws. */
  function Select(selection: seq<string>, x: string): (r: Result<seq<string>, SelectionError>)
    ensures r.Err? <==> x in selection
    ensures r.Err? ==> r.error == AlreadySelected
    ensures r.Ok? ==> |r.value| == |selection| + 1 && r.value[..|selection|] == selection && r.value[|selection|] == x
  {
    if x in selection then Err(AlreadySelected) else Ok(selection + [x])
  }

  /** The selection after `unSelectElement(x)`, or the error it throws. */
  function Unselect(selection: seq<string>, x: string): (r: Result<seq<string>, SelectionError>)
    ensures r.Err? <==> x !in selection
    ensures r.Err? ==> r.error == NotSelected
    ensures r.Ok? ==> x !in r.value && forall y :: y != x ==> (y in r.value <==> y in selection)
  {
    if x !in selection then Err(NotSelected) else Ok(Without(selection, x))
  }

  /** Selecting keeps a selection free of duplicates. */
  lemma SelectKeepsDistinct(selection: seq<string>, x: string)
    requires Distinct(selection)
    ensures Select(selection, x).Ok? ==> Distinct(Select(selection, x).value)
  {
  }

  /** Unselecting keeps the other ids in their order, and a selection free of duplicates. */
  lemma UnselectKeepsOrder(selection: seq<string>, x: string)
    requires x in selection
    ensures IsSubsequence(Unselect(selection, x).value, selection)
    ensures Distinct(selection) ==> Distinct(Unselect(selection, x).value)
  {
    FilterIsSubsequence(Other(x), selection);
    if Distinct(selection) {
      FilterKeepsDistinct(Other(x), selection);
    }
  }

  /** Selecting an unselected id and unselecting it again restores the selection. */
  lemma SelectThenUnselect(selection: seq<string>, x: string)
    requires x !in selection
    ensures Select(selection, x).Ok?
    ensures Unselect(Select(selection, x).value, x) == Ok(selection)
  {
    WithoutAppended(selection, x);
    WithoutAbsent(selection, x);
  }

  /** The elements after `setDragStartPositions`: each selected element's start is its current position. */
  function RecordDragStarts(elements: map<string, Element>, selection: seq<string>): (r: map<string, Element>)
    ensures r.Keys == elements.Keys
    ensures forall id :: id in r ==> r[id].id == elements[id].id && r[id].position == elements[id].position
    ensures forall id :: id in r && id in selection ==> r[id].dragStartPosition == elements[id].position
    ensures forall id :: id in r && id !in selection ==> r[id] == elements[id]
  {
    map id | id in elements :: if id in selection then elements[id].(dragStartPosition := elements[id].position) else elements[id]
  }

  /**
   * The elements after `handleDrag` with the pointer at `mouse`: each selected
   * element sits at its start position moved by the pointer's travel since the press.
   */
  function DraggedTo(elements: map<string, Element>, selection: seq<string>, startMouse: Point, mouse: Point): (r: map<string, Element>)
    ensures r.Keys == elements.Keys
    ensures forall id :: id in r ==> r[id].id == elements[id].id && r[id].dragStartPosition == elements[id].dragStartPosition
    ensures forall id :: id in r && id in selection ==>
      r[id].position.x - elements[id].dragStartPosition.x == mouse.x - startMouse.x &&
      r[id].position.y - elements[id].dragStartPosition.y == mouse.y - startMouse.y
    ensures forall id :: id in r && id !in selection ==> r[id] == elements[id]
  {
    map id | id in elements ::
      if id in selection then elements[id].(position := Offset(elements[id].dragStartPosition, startMouse, mouse))
      else elements[id]
  }

  /** Right after the press, a drag with the pointer still at the press point moves nothing. */
  lemma NoJumpAtPress(elements: map<string, Element>, selection: seq<string>, mouse: Point)
    ensures DraggedTo(RecordDragStarts(elements, selection), selection, mouse, mouse) == RecordDragStarts(elements, selection)
  {
    var started := RecordDragStarts(elements, selection);
    var r := DraggedTo(started, selection, mouse, mouse);
    assert forall id | id in r :: r[id] == started[id];
  }

  /**
   * Every drag move recomputes from the press: with the same press point,
   * a later move undoes nothing and keeps nothing of an earlier one.
   */
  lemma LaterMoveForgetsEarlier(elements: map<string, Element>, selection: seq<string>, startMouse: Point, earlier: Point, mouse: Point)
    ensures DraggedTo(DraggedTo(elements, selection, startMouse, earlier), selection, startMouse, mouse)
      == DraggedTo(elements, selection, startMouse, mouse)
  {
    var a := DraggedTo(DraggedTo(elements, selection, startMouse, earlier), selection, startMouse, mouse);
    var b := DraggedTo(elements, selection, startMouse, mouse);
    assert forall id | id in a :: a[id] == b[id];
  }

  /** The selected elements move as one: the offsets between them stay what they were at the press. */
  lemma GroupMovesRigidly(elements: map<string, Element>, selection: seq<string>, startMouse: Point, mouse: Point, a: string, b: string)
    requires a in elements && b in elements && a in selection && b in selection
    ensures var r := DraggedTo(RecordDragStarts(elements, selection), selection, startMouse, mouse);
      r[a].position.x - r[b].position.x == elements[a].position.x - elements[b].position.x &&
      r[a].position.y - r[b].position.y == elements[a].position.y - elements[b].position.y
  {
  }

  /** The test `checkIntersection` applies to one element id. */
  predicate Hit(rects: map<string, Rect>, selection: Option<Rect>, id: string) {
    selection.Some? && id in rects && Overlaps(selection.value, rects[id])
  }

  /** `Hit` as the callback of a filter. */
  function HitTest(rects: map<string, Rect>, selection: Option<Rect>): string -> bool {
    id => Hit(rects, selection, id)
  }

  /** `DragState` of the multi-select page: the store behind its context. */
  class SelectionContext {
    var elements: map<string, Element>
    /** The keys of `elements` in insertion order, the order `Object.keys` lists them in. */
    var elementIds: seq<string>
    var selectedElementIds: seq<string>
    var dragStartMousePosition: Point
    var isDragging: bool

    /** `elementIds` lists each key of `elements` once. */
    ghost predicate Valid()
      reads this
    {
      Distinct(elementIds) && forall id :: id in elements <==> id in elementIds
    }

    /** Every selected id names an element (otherwise the drag operations throw). */
    predicate SelectedKnown()
      reads this
    {
      forall id :: id in selectedElementIds ==> id in elements
    }

    /** The initial store: no elements, nothing selected, no drag. */
    constructor ()
      ensures Valid() && SelectedKnown()
      ensures elements == map[] && elementIds == [] && selectedElementIds == []
      ensures dragStartMousePosition == Point(0, 0) && !isDragging
    {
      elements := map[];
      elementIds := [];
      selectedElementIds := [];
      dragStartMousePosition := Point(0, 0);
      isDragging := false;
    }

    /** `addElement`: store the element under its id, replacing any element already there. */
    method AddElement(toAdd: Element)
      requires Valid()
      modifies this
      ensures Valid()
      ensures elements == old(elements)[toAdd.id := toAdd]
      ensures elementIds == if toAdd.id in old(elements) then old(elementIds) else old(elementIds) + [toAdd.id]
      ensures selectedElementIds == old(selectedElementIds)
      ensures dragStartMousePosition == old(dragStartMousePosition) && isDragging == old(isDragging)
      ensures old(SelectedKnown()) ==> SelectedKnown()
    {
      if toAdd.id !in elements {
        elementIds := elementIds + [toAdd.id];
      }
      elements := elements[toAdd.id := toAdd];
    }

    /** `moveElement`: set one element's position (the id must name an element, or the store throws). */
    method MoveElement(toMoveId: string, toPosition: Point)
      requires toMoveId in elements
      requires Valid()
      modifies this
      ensures Valid()
      ensures elements == old(elements)[toMoveId := old(elements)[toMoveId].(position := toPosition)]
      ensures elementIds == old(elementIds) && selectedElementIds == old(selectedElementIds)
      ensures dragStartMousePosition == old(dragStartMousePosition) && isDragging == old(isDragging)
    {
      elements := elements[toMoveId := elements[toMoveId].(position := toPosition)];
    }

    /** `setDragStartPositions`: remember where every selected element is. */
    method SetDragStartPositions()
      requires SelectedKnown()
      requires Valid()
      modifies this
      ensures Valid()
      ensures elements == RecordDragStarts(old(elements), selectedElementIds)
      ensures elementIds == old(elementIds) && selectedElementIds == old(selectedElementIds)
      ensures dragStartMousePosition == old(dragStartMousePosition) && isDragging == old(isDragging)
    {
      var updated := elements;
      var i := 0;
      while i < |selectedElementIds|
        invariant 0 <= i <= |selectedElementIds|
        invariant updated.Keys == elements.Keys
        invariant forall id :: id in updated ==>
          updated[id] == if id in selectedElementIds[..i] then elements[id].(dragStartPosition := elements[id].position) else elements[id]
      {
        var id := selectedElementIds[i];
        assert selectedElementIds[..i + 1] == selectedElementIds[..i] + [id];
        var prev := updated[id];
        updated := updated[id := prev.(dragStartPosition := prev.position)];
        i := i + 1;
      }
      assert selectedElementIds[..i] == selectedElementIds;
      elements := updated;
    }

    /** `setDragStartMousePosition`. */
    method SetDragStartMousePosition(position: Point)
      requires Valid()
      modifies this
      ensures Valid()
      ensures dragStartMousePosition == position
      ensures elements == old(elements) && elementIds == old(elementIds)
      ensures selectedElementIds == old(selectedElementIds) && isDragging == old(isDragging)
    {
      dragStartMousePosition := position;
    }

    /** `selectElement`: append the id, or fail if it is already selected. */
    method SelectElement(toSelect: string) returns (outcome: Outcome<SelectionError>)
      requires Valid()
      modifies this
      ensures Valid()
      ensures match Select(old(selectedElementIds), toSelect)
        case Ok(s) => outcome == Pass && selectedElementIds == s
        case Err(e) => outcome == Fail(e) && selectedElementIds == old(selectedElementIds)
      ensures elements == old(elements) && elementIds == old(elementIds)
      ensures dragStartMousePosition == old(dragStartMousePosition) && isDragging == old(isDragging)
    {
      if toSelect in selectedElementIds {
        return Fail(AlreadySelected);
      }
      selectedElementIds := selectedElementIds + [toSelect];
      outcome := Pass;
    }

    /** `unSelectElement`: remove the id, or fail if it is not selected. */
    method UnSelectElement(toUnselect: string) returns (outcome: Outcome<SelectionError>)
      requires Valid()
      modifies this
      ensures Valid()
      ensures match Unselect(old(selectedElementIds), toUnselect)
        case Ok(s) => outcome == Pass && selectedElementIds == s
        case Err(e) => outcome == Fail(e) && selectedElementIds == old(selectedElementIds)
      ensures elements == old(elements) && elementIds == old(elementIds)
      ensures dragStartMousePosition == old(dragStartMousePosition) && isDragging == old(isDragging)
    {
      if toUnselect !in selectedElementIds {
        return Fail(NotSelected);
      }
      selectedElementIds := Without(selectedElementIds, toUnselect);
      outcome := Pass;
    }

    /** `setSelection`: the selection becomes exactly the given list. */
    method SetSelection(newSelection: seq<string>)
      requires Valid()
      modifies this
      ensures Valid()
      ensures selectedElementIds == newSelection
      ensures elements == old(elements) && elementIds == old(elementIds)
      ensures dragStartMousePosition == old(dragStartMousePosition) && isDragging == old(isDragging)
    {
      selectedElementIds := newSelection;
    }

    /** `clearSelection`. */
    method ClearSelection()
      requires Valid()
      modifies this
      ensures Valid()
      ensures selectedElementIds == []
      ensures elements == old(elements) && elementIds == old(elementIds)
      ensures dragStartMousePosition == old(dragStartMousePosition) && isDragging == old(isDragging)
    {
      selectedElementIds := [];
    }

    /** `handleDrag`: mark the drag as started and move every selected element with the pointer. */
    method HandleDrag(mouse: Point)
      requires SelectedKnown()
      requires Valid()
      modifies this
      ensures Valid()
      ensures isDragging
      ensures elements == DraggedTo(old(elements), selectedElementIds, dragStartMousePosition, mouse)
      ensures elementIds == old(elementIds) && selectedElementIds == old(selectedElementIds)
      ensures dragStartMousePosition == old(dragStartMousePosition)
    {
      if !isDragging {
        SetIsDragging(true);
      }
      var updated := elements;
      var i := 0;
      while i < |selectedElementIds|
        invariant 0 <= i <= |selectedElementIds|
        invariant updated.Keys == elements.Keys
        invariant forall id :: id in updated ==>
          updated[id] == if id in selectedElementIds[..i]
            then elements[id].(position := Offset(elements[id].dragStartPosition, dragStartMousePosition, mouse))
            else elements[id]
      {
        var id := selectedElementIds[i];
        assert selectedElementIds[..i + 1] == selectedElementIds[..i] + [id];
        updated := updated[id := updated[id].(position := Offset(elements[id].dragStartPosition, dragStartMousePosition, mouse))];
        i := i + 1;
      }
      assert selectedElementIds[..i] == selectedElementIds;
      elements := updated;
    }

    /** `setIsDragging`. */
    method SetIsDragging(isDragging: bool)
      requires Valid()
      modifies this
      ensures Valid()
      ensures this.isDragging == isDragging
      ensures elements == old(elements) && elementIds == old(elementIds)
      ensures selectedElementIds == old(selectedElementIds) && dragStartMousePosition == old(dragStartMousePosition)
    {
      this.isDragging := isDragging;
    }
  }

  /**
   * `checkIntersection`: the ids, in key order, of the elements whose
   * rectangle strictly overlaps the selection rectangle. An element without a
   * rectangle is skipped, and without a selection rectangle nothing is hit.
   */
  method CheckIntersection(ids: seq<string>, rects: map<string, Rect>, selection: Option<Rect>) returns (hits: seq<string>)
    ensures hits == Filter(HitTest(rects, selection), ids)
    ensures forall id :: id in hits <==> id in ids && Hit(rects, selection, id)
  {
    hits := [];
    var i := 0;
    while i < |ids|
      invariant 0 <= i <= |ids|
      invariant hits == Filter(HitTest(rects, selection), ids[..i])
    {
      var id := ids[i];
      FilterConcat(HitTest(rects, selection), ids[..i], [id]);
      assert ids[..i + 1] == ids[..i] + [id];
      if selection.Some? && id in rects {
        if Overlaps(selection.value, rects[id]) {
          hits := hits + [id];
        }
      }
      i := i + 1;
    }
    assert ids[..i] == ids;
  }

  /** The hits keep key order and, the keys being distinct, contain no duplicates. */
  lemma HitsAreOrderedAndDistinct(ids: seq<string>, rects: map<string, Rect>, selection: Option<Rect>)
    ensures IsSubsequence(Filter(HitTest(rects, selection), ids), ids)
    ensures Distinct(ids) ==> Distinct(Filter(HitTest(rects, selection), ids))
  {
    FilterIsSubsequence(HitTest(rects, selection), ids);
    if Distinct(ids) {
      FilterKeepsDistinct(HitTest(rects, selection), ids);
    }
  }

  /** A selectable element: `Draggable`'s mouse handlers. */
  class Draggable {
    const id: string
    const ctx: SelectionContext

    constructor (id: string, ctx: SelectionContext)
      ensures this.id == id && this.ctx == ctx
    {
      this.id := id;
      this.ctx := ctx;
    }

    /**
     * `handleMouseDown`: select this element unless it already is (so the
     * already-selected error cannot occur), then remember the press point and
     * where every selected element is.
     */
    method HandleMouseDown(clientX: int, clientY: int)
      requires ctx.Valid() && ctx.SelectedKnown() && id in ctx.elements
      modifies ctx
      ensures ctx.Valid()
      ensures ctx.selectedElementIds == if id in old(ctx.selectedElementIds) then old(ctx.selectedElementIds) else old(ctx.selectedElementIds) + [id]
      ensures ctx.dragStartMousePosition == Point(clientX, clientY)
      ensures ctx.elements == RecordDragStarts(old(ctx.elements), ctx.selectedElementIds)
      ensures ctx.elementIds == old(ctx.elementIds) && ctx.isDragging == old(ctx.isDragging)
      ensures ctx.SelectedKnown()
    {
      if id !in ctx.selectedElementIds {
        var outcome := ctx.SelectElement(id);
        assert outcome == Pass;
      }
      ctx.SetDragStartMousePosition(Point(clientX, clientY));
      ctx.SetDragStartPositions();
    }

    /** `handleMouseUp`: only if a drag took place, end it and clear the selection. */
    method HandleMouseUp()
      requires ctx.Valid()
      modifies ctx
      ensures ctx.Valid()
      ensures old(ctx.isDragging) ==> !ctx.isDragging && ctx.selectedElementIds == []
      ensures !old(ctx.isDragging) ==> !ctx.isDragging && ctx.selectedElementIds == old(ctx.selectedElementIds)
      ensures ctx.elements == old(ctx.elements) && ctx.elementIds == old(ctx.elementIds)
      ensures ctx.dragStartMousePosition == old(ctx.dragStartMousePosition)
    {
      if ctx.isDragging {
        ctx.SetIsDragging(false);
        ctx.ClearSelection();
      }
    }
  }

  /** The rubber-band zone: `DragSelectZone`'s signals and mouse handlers. */
  class DragSelectZone {
    const ctx: SelectionContext
    var dragStartMousePosition: Point
    var mousePosition: Point
    var isDragging: bool

    constructor (ctx: SelectionContext)
      ensures this.ctx == ctx
      ensures dragStartMousePosition == Point(0, 0) && mousePosition == Point(0, 0) && !isDragging
    {
      this.ctx := ctx;
      dragStartMousePosition := Point(0, 0);
      mousePosition := Point(0, 0);
      isDragging := false;
    }

    /**
     * `handleMouseDown`: a press already handled by an element changes
     * nothing; otherwise the selection is cleared and a rubber band starts here.
     */
    method HandleMouseDown(defaultPrevented: bool, clientX: int, clientY: int)
      requires ctx.Valid()
      modifies this, ctx
      ensures ctx.Valid()
      ensures defaultPrevented ==> unchanged(this) && unchanged(ctx)
      ensures !defaultPrevented ==>
        && isDragging
        && dragStartMousePosition == Point(clientX, clientY) && mousePosition == Point(clientX, clientY)
        && ctx.selectedElementIds == []
        && ctx.elements == old(ctx.elements) && ctx.elementIds == old(ctx.elementIds)
        && ctx.dragStartMousePosition == old(ctx.dragStartMousePosition) && ctx.isDragging == old(ctx.isDragging)
    {
      if defaultPrevented {
        return;
      }
      ctx.ClearSelection();
      isDragging := true;
      dragStartMousePosition := Point(clientX, clientY);
      mousePosition := Point(clientX, clientY);
    }

    /**
     * `handleMouseMove`: track the pointer and select exactly the elements the
     * rendered band overlaps. `rects` holds the rectangles of the rendered
     * elements and `selection` that of the band, when it is rendered.
     */
    method HandleMouseMove(clientX: int, clientY: int, rects: map<string, Rect>, selection: Option<Rect>)
      requires ctx.Valid()
      modifies this, ctx
      ensures mousePosition == Point(clientX, clientY)
      ensures dragStartMousePosition == old(dragStartMousePosition) && isDragging == old(isDragging)
      ensures ctx.selectedElementIds == Filter(HitTest(rects, selection), ctx.elementIds)
      ensures ctx.Valid() && ctx.SelectedKnown() && Distinct(ctx.selectedElementIds)
      ensures ctx.elements == old(ctx.elements) && ctx.elementIds == old(ctx.elementIds)
      ensures ctx.dragStartMousePosition == old(ctx.dragStartMousePosition) && ctx.isDragging == old(ctx.isDragging)
    {
      mousePosition := Point(clientX, clientY);
      var hits := CheckIntersection(ctx.elementIds, rects, selection);
      HitsAreOrderedAndDistinct(ctx.elementIds, rects, selection);
      ctx.SetSelection(hits);
    }

    /** `handleMouseUp`: the band disappears; the selection stays. */
    method HandleMouseUp()
      modifies this
      ensures !isDragging
      ensures dragStartMousePosition == old(dragStartMousePosition) && mousePosition == old(mousePosition)
    {
      isDragging := false;
    }

    /** The band as `selectBoxDimensions` places it; for a press inside the zone it stays inside. */
    function SelectionBox(zone: Rect): (r: Rect)
      reads this
      ensures SelectBox.Inside(zone, dragStartMousePosition) ==>
        zone.x <= r.x <= r.Right() <= zone.Right() && zone.y <= r.y <= r.Bottom() <= zone.Bottom()
    {
      SelectBox.BoxIsClampedSpan(dragStartMousePosition, mousePosition, zone);
      SelectBox.Box(dragStartMousePosition, mousePosition, zone)
    }
  }
}
