/**
 * The shared drag store of the card board: whether a drag is in progress,
 * which card is being dragged from which zone, and the zone under the
 * pointer that a release would drop the card into.
 */
module Drag {
  import opened Wrappers
  import opened Game

  /** `DragItem`: the dragged card and the zone it was picked up from. */
  datatype DragItem = DragItem(cardId: string, zoneId: ZoneName)

  /** `DragState`; `null` is `None`. */
  datatype DragState = DragState(
    isDragging: bool,
    dragItem: Option<DragItem>,
    currentDropTarget: Option<ZoneName>)

  /** `DragRoot`'s store and its three setters, one per field. */
  class DragRoot {
    var state: DragState

    /** Nothing is being dragged and no zone is targeted. */
    constructor ()
      ensures !state.isDragging && state.dragItem == None && state.currentDropTarget == None
    {
      state := DragState(false, None, None);
    }

    /** `setIsDragging`: writes `isDragging` only; writing the value it already has changes nothing. */
    method SetIsDragging(isDragging: bool)
      modifies this
      ensures state.isDragging == isDragging
      ensures state.dragItem == old(state.dragItem)
      ensures state.currentDropTarget == old(state.currentDropTarget)
      ensures old(state.isDragging) == isDragging ==> state == old(state)
    {
      state := state.(isDragging := isDragging);
    }

    /** `setDragItem`, which accepts `null`: writes `dragItem` only. */
    method SetDragItem(item: Option<DragItem>)
      modifies this
      ensures state.dragItem == item
      ensures state.isDragging == old(state.isDragging)
      ensures state.currentDropTarget == old(state.currentDropTarget)
      ensures old(state.dragItem) == item ==> state == old(state)
    {
      state := state.(dragItem := item);
    }

    /** `setCurrentDropTarget`, which accepts `null`: writes `currentDropTarget` only. */
    method SetCurrentDropTarget(dropTarget: Option<ZoneName>)
      modifies this
      ensures state.currentDropTarget == dropTarget
      ensures state.isDragging == old(state.isDragging)
      ensures state.dragItem == old(state.dragItem)
      ensures old(state.currentDropTarget) == dropTarget ==> state == old(state)
    {
      state := state.(currentDropTarget := dropTarget);
    }
  }
}
