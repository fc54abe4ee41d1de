# Card board drag-and-drop and multi-select, modelled in Dafny

This project models the state logic of a browser card-game prototype (a
Magic-the-Gathering-like board). Three pieces are modelled, with DOM events
as method calls and coordinates as integers:

- **The game store** (`src/components/game/game-root.tsx`, types from
  `game-context.tsx`). A record from the zone names `players`,
  `battlefield` and `info` to ordered lists of card ids, plus the card
  library and the players' names. `addCard` appends an id to a zone.
  `removeCard` filters every copy of an id out of a zone. `moveCard` is a
  removal followed by an append. Module `Game`: the pure updaters
  `AddedTo`, `RemovedFrom` and `Moved`, and the class `GameRoot`, whose
  methods rewrite its `zones` field.
- **Dragging a card between zones** (`drag-root.tsx`, with types from
  `drag-context.tsx`, plus `createDraggable.ts` and `createDropTarget.ts`).
  Module `Drag` holds the shared drag store: `isDragging`, `dragItem` and
  `currentDropTarget`, with one setter per field. Module `CardDrag` holds
  the card's mouse handlers and the zones' hover handlers, as classes over
  that store and the game store. Their effect on the drag store is given by
  the transition functions `Grab`, `Release`, `PointerOver` and
  `PointerLeave`, and their effect on the zones by `Dropped`.
  Because mouse-up keeps `currentDropTarget`, a later press and release on
  a card, with no zone entered in between, moves that card to the zone of
  the earlier drop. Lemma `StaleTargetCommitsClick` states this.
- **The multi-select page** (`src/routes/test2.tsx`) and **the single-box
  test page** (`src/routes/test.tsx`). Module `MultiSelect` covers:
  - the page's store (`SelectionContext`);
  - the selection operations and the errors they throw (`Select`,
    `Unselect`);
  - group dragging (`RecordDragStarts`, `DraggedTo`);
  - the rubber-band hit test (`CheckIntersection`);
  - the element and zone handlers.

  Module `BoxPage` holds the single dragged box and the test page's
  rubber band. The band's geometry is the same on both pages, so it is
  defined once, in module `SelectBox`.

Shared modules: `Seqs`, for `Array.prototype.filter` and the facts about a
filtered list; `Geometry`, for points, bounding rectangles, the pointer
offset and the strict overlap test; and `Wrappers`, for `null` as `None` and
thrown errors as `Err`/`Fail`.

For keys that are not array indices, `Object.keys` lists them in insertion
order. The page's element ids come from `createUniqueId` and are never array
indices, so the multi-select store keeps its insertion order in a field
`elementIds` next to the `elements` map. The hit test follows this order.

## Model

| member | source | states |
|---|---|---|
| `Seqs.Without` | src/components/game/game-root.tsx:44 | the filtered list has no copy of the id, and keeps every other id it had |
| `Seqs.WithoutCounts` | src/components/game/game-root.tsx:43-45 | the filter drops exactly the copies of the id: the multiset loses them and nothing else, so the length falls by their number |
| `Seqs.WithoutAbsent` | src/components/game/game-root.tsx:44 | filtering out an id the list does not hold returns the list unchanged |
| `Seqs.FilterIsSubsequence` | src/components/game/game-root.tsx:44 | a filter keeps the relative order of the ids it keeps |
| `Seqs.FilterKeepsDistinct` | src/routes/test2.tsx:298-299 | filtering a list without duplicates gives a list without duplicates |
| `Seqs.WithoutAppended` | src/routes/test2.tsx:283-299 | appending an id and then filtering it out equals filtering the original list |
| `Geometry.Offset` | src/routes/test.tsx:13-18 | the dragged point moves by exactly the pointer's travel on each axis |
| `Geometry.OffsetAtPress` | src/routes/test.tsx:13-18 | while the pointer is at the press point, the box stays at its start position |
| `Geometry.OverlapsSymmetric` | src/routes/test2.tsx:134-139 | the overlap test gives the same answer with the two rectangles swapped |
| `Geometry.TouchingDoesNotOverlap` | src/routes/test2.tsx:134-139 | rectangles that only share an edge are not counted as overlapping |
| `Geometry.OverlapsIffSharedPoint` | src/routes/test2.tsx:134-139 | for non-empty rectangles, the test holds exactly when some position lies in both |
| `Game.InitialZonesComplete` | src/components/game/game-root.tsx:26-30 | the initial zones record has an entry for each of the three zones |
| `Game.AddedTo` | src/components/game/game-root.tsx:40-42 | the card becomes the last id of the target zone, the ids before it stay as they were, and every other zone is unchanged |
| `Game.RemovedFrom` | src/components/game/game-root.tsx:43-45 | the zone no longer holds the card but keeps every other id, and every other zone is unchanged |
| `Game.Moved` | src/components/game/game-root.tsx:46-49 | the card ends as the last id of the target zone, is gone from a different source zone, and the third zone is unchanged |
| `Game.RemovalKeepsOthers` | src/components/game/game-root.tsx:43-45 | removal keeps the other ids in order and drops exactly the copies of the card |
| `Game.RemovingAbsentCard` | src/components/game/game-root.tsx:44 | removing a card that the zone does not hold leaves every zone unchanged |
| `Game.MoveWithinZone` | src/components/game/game-root.tsx:46-49 | a move into the card's own zone leaves it there, once, as the last id, after the others in their order; a card that was not in the zone is added to it |
| `Game.MoveOfAbsentCard` | src/components/game/game-root.tsx:46-49 | a move does not check the source zone: a card that is not there is still appended to the target |
| `Game.MoveKeepsBoard` | src/components/game/game-root.tsx:46-49 | moving a card that occurs once in its source zone keeps the multiset of ids on the board, and with it their total |
| `Game.MoveKeepsCardsKnown` | src/components/game/game-root.tsx:46-49 | moving a library card keeps every placed id a card of the library |
| `Game.GameRoot.constructor` | src/components/game/game-root.tsx:6-36 | initial state: `one` and `two` on the battlefield, `players` and `info` empty, the two test cards, the two player names; every placed id is a library card |
| `Game.GameRoot.AddCard` | src/components/game/game-root.tsx:40-42 | the zones become `AddedTo` of the old zones; the cards and players are unchanged |
| `Game.GameRoot.RemoveCard` | src/components/game/game-root.tsx:43-45 | the zones become `RemovedFrom` of the old zones; the cards and players are unchanged |
| `Game.GameRoot.MoveCard` | src/components/game/game-root.tsx:46-49 | removal then append: the zones become `Moved` of the old zones |
| `Drag.DragRoot.constructor` | src/components/game/drag-root.tsx:6-10 | initially not dragging, with no item and no target |
| `Drag.DragRoot.SetIsDragging` | src/components/game/drag-root.tsx:14-16 | writes `isDragging` only; writing its current value changes nothing, so a second call is a no-op |
| `Drag.DragRoot.SetDragItem` | src/components/game/drag-root.tsx:17-19 | writes `dragItem` only, `null` included; a second call with the same item is a no-op |
| `Drag.DragRoot.SetCurrentDropTarget` | src/components/game/drag-root.tsx:20-22 | writes `currentDropTarget` only, `null` included; a second call with the same target is a no-op |
| `CardDrag.Grab` | src/components/game/createDraggable.ts:37-39 | a press starts a drag of this item and leaves the target as it was |
| `CardDrag.Release` | src/components/game/createDraggable.ts:25-27 | a release ends the drag, clears the item and keeps the target |
| `CardDrag.PointerOver` | src/components/game/createDropTarget.ts:7-9 | while dragging, the zone becomes the target; when not dragging, the store is unchanged; the flag and the item are never touched |
| `CardDrag.PointerLeave` | src/components/game/createDropTarget.ts:11-13 | while dragging, the target is cleared; when not dragging, the store is unchanged; the flag and the item are never touched |
| `CardDrag.Dropped` | src/components/game/createDraggable.ts:29-31 | the zones change only when a target is set; with a target, the card ends last in it and is gone from a different source zone |
| `CardDrag.HandlersKeepCoherent` | src/components/game/createDraggable.ts:25-39 | every handler keeps "dragging exactly when an item is dragged" |
| `CardDrag.OverThenLeave` | src/components/game/createDropTarget.ts:7-13 | while dragging, entering and then leaving a zone leaves a null target, whatever it was before |
| `CardDrag.DragOntoZone` | src/components/game/createDraggable.ts:25-39 | press, enter zone t, release: the card is moved to t and the store ends idle with t still recorded |
| `CardDrag.LeaveBeforeRelease` | src/components/game/createDropTarget.ts:11-13 | press, enter a zone, leave it, release: no card moves |
| `CardDrag.StaleTargetCommitsClick` | src/components/game/createDraggable.ts:25-31 | after a drop on t, a press and release with no zone entered moves the pressed card to t |
| `CardDrag.Draggable.constructor` | src/components/game/createDraggable.ts:14-18 | the handlers are bound to one item and the two stores; the tracked position starts at the origin |
| `CardDrag.Draggable.HandleMouseDown` | src/components/game/createDraggable.ts:37-47 | the drag store becomes `Grab` of this item, and the tracked position is the pointer |
| `CardDrag.Draggable.HandleMouseMove` | src/components/game/createDraggable.ts:20-23 | the tracked position is exactly the pointer |
| `CardDrag.Draggable.HandleMouseUp` | src/components/game/createDraggable.ts:25-35 | the drag store becomes `Release` of the old one, and the zones become `Dropped`: moved to the target if one was set, unchanged otherwise |
| `CardDrag.DropTarget.constructor` | src/components/game/createDropTarget.ts:4-5 | the handlers are bound to one zone and the drag store |
| `CardDrag.DropTarget.HandleMouseOver` | src/components/game/createDropTarget.ts:7-9 | the drag store becomes `PointerOver` of the old one |
| `CardDrag.DropTarget.HandleMouseLeave` | src/components/game/createDropTarget.ts:11-13 | the drag store becomes `PointerLeave` of the old one |
| `SelectBox.Top` | src/routes/test.tsx:87-92 | the top is never above the zone: it is the upper of press and pointer, or the zone's top edge when that point lies above it |
| `SelectBox.Left` | src/routes/test.tsx:94-99 | the left edge is never left of the zone: it is the leftmost of press and pointer, or the zone's left edge when that point lies beyond it |
| `SelectBox.Height` | src/routes/test.tsx:101-111 | with the pointer level with the zone, the vertical distance dragged; with the press in the zone, the length of the dragged span once both ends are moved into the zone |
| `SelectBox.Width` | src/routes/test.tsx:113-123 | as the height, on the horizontal axis |
| `SelectBox.PointerBeyondEdge` | src/routes/test2.tsx:199-228 | with the pointer above or below, left or right of the zone, the band reaches from the press point to that edge |
| `SelectBox.BoxIsClampedSpan` | src/routes/test2.tsx:174-229 | for a press inside the zone, the band is exactly the rectangle between press and pointer with each coordinate moved into the zone, so it never leaves the zone |
| `MultiSelect.Select` | src/routes/test2.tsx:277-288 | fails with the already-selected error exactly when the id is selected; otherwise the id is appended |
| `MultiSelect.Unselect` | src/routes/test2.tsx:289-302 | fails with the not-selected error exactly when the id is not selected; otherwise the id is removed and every other id kept |
| `MultiSelect.SelectKeepsDistinct` | src/routes/test2.tsx:277-288 | a successful select keeps the selection free of duplicates |
| `MultiSelect.UnselectKeepsOrder` | src/routes/test2.tsx:289-302 | unselect keeps the other ids in their order, and keeps a selection free of duplicates |
| `MultiSelect.SelectThenUnselect` | src/routes/test2.tsx:277-302 | selecting an unselected id and unselecting it again restores the original selection |
| `MultiSelect.RecordDragStarts` | src/routes/test2.tsx:266-273 | each selected element's drag start becomes its current position; positions and unselected elements are unchanged |
| `MultiSelect.DraggedTo` | src/routes/test2.tsx:314-323 | each selected element sits at its drag start moved by the pointer's travel since the press; drag starts and unselected elements are unchanged |
| `MultiSelect.NoJumpAtPress` | src/routes/test2.tsx:266-324 | right after the press, a drag with the pointer still at the press point moves no element |
| `MultiSelect.LaterMoveForgetsEarlier` | src/routes/test2.tsx:314-323 | with the press fixed, a drag move to a pointer gives the same elements whatever moves came before it |
| `MultiSelect.GroupMovesRigidly` | src/routes/test2.tsx:309-324 | dragging the selection keeps the offsets between selected elements as they were at the press |
| `MultiSelect.CheckIntersection` | src/routes/test2.tsx:116-145 | returns, in key order, exactly the ids that have a rectangle strictly overlapping the selection rectangle; nothing when there is no selection rectangle |
| `MultiSelect.HitsAreOrderedAndDistinct` | src/routes/test2.tsx:116-145 | the hits keep key order and, the keys being distinct, have no duplicates |
| `MultiSelect.SelectionContext.constructor` | src/routes/test2.tsx:251-256 | no elements, empty selection, press point at the origin, not dragging |
| `MultiSelect.SelectionContext.AddElement` | src/routes/test2.tsx:260-262 | the element is stored under its id, a new id is appended to the key order, and each key is listed once |
| `MultiSelect.SelectionContext.MoveElement` | src/routes/test2.tsx:263-265 | only that element's position changes |
| `MultiSelect.SelectionContext.SetDragStartPositions` | src/routes/test2.tsx:266-273 | the elements become `RecordDragStarts` of the old ones; nothing else changes |
| `MultiSelect.SelectionContext.SetDragStartMousePosition` | src/routes/test2.tsx:274-276 | only the press point changes |
| `MultiSelect.SelectionContext.SelectElement` | src/routes/test2.tsx:277-288 | the outcome and the new selection are those of `Select`; on the error the selection is unchanged |
| `MultiSelect.SelectionContext.UnSelectElement` | src/routes/test2.tsx:289-302 | the outcome and the new selection are those of `Unselect`; on the error the selection is unchanged |
| `MultiSelect.SelectionContext.SetSelection` | src/routes/test2.tsx:303-305 | the selection becomes exactly the given list |
| `MultiSelect.SelectionContext.ClearSelection` | src/routes/test2.tsx:306-308 | the selection becomes empty |
| `MultiSelect.SelectionContext.HandleDrag` | src/routes/test2.tsx:309-324 | the drag is marked started and the elements become `DraggedTo` of the old ones; the selection and the press point are unchanged |
| `MultiSelect.SelectionContext.SetIsDragging` | src/routes/test2.tsx:325-327 | only the drag flag changes |
| `MultiSelect.Draggable.constructor` | src/routes/test2.tsx:59-63 | the handlers are bound to one element id and the store |
| `MultiSelect.Draggable.HandleMouseDown` | src/routes/test2.tsx:75-85 | selects the element only if it is not yet selected, so the already-selected error cannot occur; records the press point and the selected elements' drag starts |
| `MultiSelect.Draggable.HandleMouseUp` | src/routes/test2.tsx:65-73 | only if a drag took place: the drag ends and the selection is cleared; otherwise nothing changes |
| `MultiSelect.DragSelectZone.constructor` | src/routes/test2.tsx:105-114 | press point and pointer at the origin, no band |
| `MultiSelect.DragSelectZone.HandleMouseDown` | src/routes/test2.tsx:159-172 | a press already handled by an element changes nothing; otherwise the selection is cleared and a band starts at the press point |
| `MultiSelect.DragSelectZone.HandleMouseMove` | src/routes/test2.tsx:147-150 | the pointer is tracked, and the selection becomes exactly the ids hit by the band, in key order and without duplicates |
| `MultiSelect.DragSelectZone.HandleMouseUp` | src/routes/test2.tsx:152-157 | the band ends; the selection stays |
| `MultiSelect.DragSelectZone.SelectionBox` | src/routes/test2.tsx:174-229 | for a press inside the zone, the band lies inside the zone |
| `BoxPage.DraggableBox.constructor` | src/routes/test.tsx:5-11 | all positions at the origin, not dragging |
| `BoxPage.DraggableBox.HandleMouseDown` | src/routes/test.tsx:27-41 | starts a drag and records the press point and the box's corner; the box does not move yet |
| `BoxPage.DraggableBox.HandleMouseMove` | src/routes/test.tsx:13-18 | the box sits at its start corner plus the pointer's travel since the press, on both axes |
| `BoxPage.DraggableBox.HandleMouseUp` | src/routes/test.tsx:20-25 | the drag ends and the box stays where it is |
| `BoxPage.TestPage.constructor` | src/routes/test.tsx:56-58 | both points at the origin, not dragging |
| `BoxPage.TestPage.HandleMouseDown` | src/routes/test.tsx:73-85 | a press already handled by a box changes nothing; otherwise a band starts, with press point and pointer both at the press |
| `BoxPage.TestPage.HandleMouseMove` | src/routes/test.tsx:62-64 | the pointer is tracked |
| `BoxPage.TestPage.HandleMouseUp` | src/routes/test.tsx:66-71 | the band ends |
| `BoxPage.TestPage.DragBox` | src/routes/test.tsx:87-123 | for a press inside the zone, the band lies inside the zone |

## Left out

- Registering and removing DOM listeners, `preventDefault` and `stopPropagation` are left out. Each handler is a method that the caller invokes. Whether an earlier handler already prevented the event's default is the `defaultPrevented` parameter.
- The order in which a press bubbles from an element to the zone around it is left out.
- `getBoundingClientRect` and element refs are left out. The rectangles they would give are parameters.
- `MultiSelect.DragSelectZone.HandleMouseMove` takes the band's rectangle as the DOM would report it. That rectangle is not tied to `SelectionBox`, because borders and render timing sit in between.
- Pointer coordinates are integers. The browser uses floating point.
- `makeElements`, `Math.random` and `createUniqueId` are not modelled. They are random setup of the multi-select page.
- The reactivity of signals and stores is not modelled: they are plain fields. A Solid store merges an object written over an existing one. Every write here replaces all of the object's fields, so the stored value after a merge equals a replacement. The merge's side effect on the object that was stored before is not modelled (see `CardDrag.Draggable.item` below).
- MultiSelect.SelectionContext.AddElement: appends every new id to `elementIds`. `Object.keys` lists array-index keys such as "0" or "42" first, in ascending order. The model assumes that element ids are never array-index strings, which holds for ids from `createUniqueId`.
- CardDrag.Draggable.item: a `const`, so the aliasing between the drag store and a card's `itemData` is not modelled. `setDragItem(itemData)` stores the card's own object, and a second press while `dragItem` is still set merges the second card's `cardId` and `zoneId` into the first card's object. This can happen after a mouse-up that never reached the document. The first card's mouse-up handler would then move the second card. The model gives each card its own unchanging item, so this double-press path is lost.
- Rendering and JSX are not modelled. That includes `zone.tsx`, `game-card.tsx`, `src/routes/game.tsx` and `src/routes/deck.tsx`. The buttons in `game-card.tsx` only call `moveCard`, which is modelled.
- The errors thrown by the `useGameContext`, `useDragContext` and `useZoneContext` lookups are not modelled.
- The server code (`src/server/api/queries.ts`, `src/server/api/middleware.ts`) and the build configuration are not part of this model.
- The `console.log` calls in `checkIntersection` are left out.
- MultiSelect.SelectionContext.SetDragStartPositions: requires every selected id to name an element. The source throws a TypeError part-way through its loop otherwise, and that error path is not modelled.
- MultiSelect.SelectionContext.HandleDrag: requires every selected id to name an element. The source throws a TypeError otherwise, and that path is not modelled.
- MultiSelect.SelectionContext.MoveElement: requires the id to name an element. The source's store throws otherwise.
- MultiSelect.Draggable.HandleMouseDown: requires its own id and every selected id to name an element. This holds on the page, and the drag-start loop needs it.
