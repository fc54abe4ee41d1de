/**
 * Dragging a card between zones: the card's mouse handlers
 * (`createDraggable`) and the zones' hover handlers (`createDropTarget`),
 * which share the drag store and, on release, move the card in the game store.
 */
module CardDrag {
  import opened Wrappers
  import opened Geometry
  import opened Game
  import opened Drag

  /** What the card's mouse-down writes to the drag store. */
  function Grab(s: DragState, item: DragItem): (r: DragState)
    ensures r.isDragging && r.dragItem == Some(item)
    ensures r.currentDropTarget == s.currentDropTarget
  {
    s.(isDragging := true, dragItem := Some(item))
  }

  /** What the card's mouse-up writes to the drag store: the drop target is kept. */
  function Release(s: DragState): (r: DragState)
    ensures !r.isDragging && r.dragItem == None
    ensures r.currentDropTarget == s.currentDropTarget
  {
    s.(isDragging := false, dragItem := None)
  }

  /** A zone's mouse-over: only while a drag is in progress, that zone becomes the target. */
  function PointerOver(s: DragState, targetId: ZoneName): (r: DragState)
    ensures r.isDragging == s.isDragging && r.dragItem == s.dragItem
    ensures s.isDragging ==> r.currentDropTarget == Some(targetId)
    ensures !s.isDragging ==> r == s
  {
    if s.isDragging then s.(currentDropTarget := Some(targetId)) else s
  }

  /** A zone's mouse-leave: only while a drag is in progress, the target is cleared. */
  function PointerLeave(s: DragState): (r: DragState)
    ensures r.isDragging == s.isDragging && r.dragItem == s.dragItem
    ensures s.isDragging ==> r.currentDropTarget == None
    ensures !s.isDragging ==> r == s
  {
    if s.isDragging then s.(currentDropTarget := None) else s
  }

  /**
   * The zones after the card's mouse-up, given the drag store as it was at
   * the release: the card moves exactly when a target is set.
   */
  function Dropped(zones: Zones, s: DragState, item: DragItem): (r: Zones)
    requires HasEveryZone(zones)
    ensures HasEveryZone(r)
    ensures s.currentDropTarget == None ==> r == zones
    ensures s.currentDropTarget.Some? ==>
      var t := s.currentDropTarget.value;
      |r[t]| > 0 && r[t][|r[t]| - 1] == item.cardId && (t != item.zoneId ==> item.cardId !in r[item.zoneId])
  {
    match s.currentDropTarget
    case None => zones
    case Some(t) => Moved(zones, item.cardId, item.zoneId, t)
  }

  /** A drag is in progress exactly when an item is being dragged. */
  predicate Coherent(s: DragState) {
    s.isDragging <==> s.dragItem.Some?
  }

  /** Every handler keeps the store coherent. */
  lemma HandlersKeepCoherent(s: DragState, item: DragItem, targetId: ZoneName)
    requires Coherent(s)
    ensures Coherent(Grab(s, item)) && Coherent(Release(s))
    ensures Coherent(PointerOver(s, targetId)) && Coherent(PointerLeave(s))
  {
  }

  /** While dragging, entering a zone and leaving it again clears the target, whatever it was. */
  lemma OverThenLeave(s: DragState, targetId: ZoneName)
    requires s.isDragging
    ensures PointerLeave(PointerOver(s, targetId)) == s.(currentDropTarget := None)
  {
  }

  /**
   * A whole gesture: press on a card, enter zone `t`, release. The card is
   * moved from its zone to `t`, and the drag ends with `t` still recorded.
   */
  lemma DragOntoZone(zones: Zones, s: DragState, item: DragItem, t: ZoneName)
    requires HasEveryZone(zones)
    ensures Dropped(zones, PointerOver(Grab(s, item), t), item) == Moved(zones, item.cardId, item.zoneId, t)
    ensures Release(PointerOver(Grab(s, item), t)) == DragState(false, None, Some(t))
  {
  }

  /** Pressing on a card, entering a zone and leaving it before the release moves nothing. */
  lemma LeaveBeforeRelease(zones: Zones, s: DragState, item: DragItem, t: ZoneName)
    requires HasEveryZone(zones)
    ensures Dropped(zones, PointerLeave(PointerOver(Grab(s, item), t)), item) == zones
  {
  }

  /**
   * The release keeps the target, so after a drop on `t` a press and release
   * with no zone entered in between moves the pressed card to `t` as well.
   */
  lemma StaleTargetCommitsClick(zones: Zones, s: DragState, first: DragItem, second: DragItem, t: ZoneName)
    requires HasEveryZone(zones)
    ensures var after := Release(PointerOver(Grab(s, first), t));
      Dropped(zones, Grab(after, second), second) == Moved(zones, second.cardId, second.zoneId, t)
  {
  }

  /** A card made draggable: `createDraggable(itemData)` and the handlers it returns. */
  class Draggable {
    const item: DragItem
    const game: GameRoot
    const drag: DragRoot
    /** The `position` signal: where the pointer was last seen. */
    var position: Point

    constructor (item: DragItem, game: GameRoot, drag: DragRoot)
      ensures this.item == item && this.game == game && this.drag == drag
      ensures position == Point(0, 0)
    {
      this.item := item;
      this.game := game;
      this.drag := drag;
      position := Point(0, 0);
    }

    /** `handleMouseDown`: start the drag of this card and track the pointer. */
    method HandleMouseDown(clientX: int, clientY: int)
      modifies this, drag
      ensures drag.state == Grab(old(drag.state), item)
      ensures position == Point(clientX, clientY)
    {
      drag.SetIsDragging(true);
      drag.SetDragItem(Some(item));
      position := Point(clientX, clientY);
    }

    /** `handleMouseMove`: track the pointer. */
    method HandleMouseMove(clientX: int, clientY: int)
      modifies this
      ensures position == Point(clientX, clientY)
    {
      position := Point(clientX, clientY);
    }

    /** `handleMouseUp`: end the drag, and move the card if a zone is targeted. */
    method HandleMouseUp()
      requires game.Valid()
      modifies drag, game
      ensures drag.state == Release(old(drag.state))
      ensures game.Valid()
      ensures game.zones == Dropped(old(game.zones), old(drag.state), item)
      ensures game.cards == old(game.cards) && game.players == old(game.players)
    {
      drag.SetIsDragging(false);
      drag.SetDragItem(None);
      if drag.state.currentDropTarget.Some? {
        game.MoveCard(item.cardId, item.zoneId, drag.state.currentDropTarget.value);
      }
    }
  }

  /** A zone made a drop target: `createDropTarget(targetId)` and its handlers. */
  class DropTarget {
    const targetId: ZoneName
    const drag: DragRoot

    constructor (targetId: ZoneName, drag: DragRoot)
      ensures this.targetId == targetId && this.drag == drag
    {
      this.targetId := targetId;
      this.drag := drag;
    }

    /** `handleMouseOver`. */
    method HandleMouseOver()
      modifies drag
      ensures drag.state == PointerOver(old(drag.state), targetId)
    {
      if drag.state.isDragging {
        drag.SetCurrentDropTarget(Some(targetId));
      }
    }

    /** `handleMouseLeave` (returned as `handleMouseExit`). */
    method HandleMouseLeave()
      modifies drag
      ensures drag.state == PointerLeave(old(drag.state))
    {
      if drag.state.isDragging {
        drag.SetCurrentDropTarget(None);
      }
    }
  }
}
