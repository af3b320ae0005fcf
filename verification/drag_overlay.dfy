/**
 * The global drag controller: while a card is dragged (not resized) it holds
 * the item, the touch position in window coordinates, the card's pixel
 * size and the preview drawn under the finger; otherwise nothing.
 */
module DragOverlay {
  import opened Wrappers
  import opened GridItems

  /** What the overlay draws: a copy of the dragged item's card. */
  datatype Preview = CardPreview(item: GridItem)

  datatype DragInfo = DragInfo(item: GridItem, dragX: real, dragY: real, widthPx: int, heightPx: int, draggableContent: Preview)

  class DragController {
    var dragInfo: Option<DragInfo>

    constructor()
      ensures dragInfo == None
    {
      dragInfo := None;
    }

    /** A drag begins: the overlay shows `content` at the start point. */
    method StartDrag(item: GridItem, startX: real, startY: real, widthPx: int, heightPx: int, content: Preview)
      modifies this
      ensures dragInfo == Some(DragInfo(item, startX, startY, widthPx, heightPx, content))
    {
      dragInfo := Some(DragInfo(item, startX, startY, widthPx, heightPx, content));
    }

    /** The touch point moved: only the position changes, and only while a drag is on. */
    method UpdateDrag(x: real, y: real)
      modifies this
      ensures old(dragInfo).None? ==> dragInfo == None
      ensures old(dragInfo).Some? ==> dragInfo == Some(old(dragInfo).value.(dragX := x, dragY := y))
    {
      if dragInfo.Some? {
        dragInfo := Some(dragInfo.value.(dragX := x, dragY := y));
      }
    }

    /** The drag is over: nothing is shown. */
    method EndDrag()
      modifies this
      ensures dragInfo == None
    {
      dragInfo := None;
    }
  }
}
