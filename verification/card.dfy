/**
 * `ItemCard`, the draggable, resizable card shared by alarms and timers.
 *
 * A drag that starts in the bottom-right resize corner resizes the card,
 * one rounded step at a time, keeping its top-left cell; any other drag moves
 * it, tracking the touch point through the drag controller, and on release the
 * card snaps to the cell under the dragged preview. Every step is clamped into
 * the grid and rejected if it would overlap another card.
 *
 * Pixel geometry is kept as real numbers (no float rounding). The gesture
 * handler is keyed on the item's id, so it keeps the `item` it was started
 * with (`handlerItem`) while later compositions bring new values of `item`.
 */
module Card {
  import opened Wrappers
  import opened KotlinText
  import opened Grid
  import opened GridItems
  import opened DragOverlay

  /** `Float.roundToInt()`: the nearest integer, halves rounded up. */
  function RoundToInt(v: real): (n: int)
    ensures v - 0.5 < n as real <= v + 0.5
  {
    (v + 0.5).Floor
  }

  /** Rounding the same real always lands on one integer. */
  lemma RoundToIntUnique(v: real, n: int)
    requires v - 0.5 < n as real <= v + 0.5
    ensures RoundToInt(v) == n
  {
  }

  /**
   * The cell index under the dragged preview's top-left corner: the touch
   * position minus half the card's pixel size (integer halving), relative to
   * the grid container, in cells, rounded.
   */
  function SnapIndex(dragPos: real, sizePx: int, containerOffset: real, cellPx: real): (i: int)
    requires cellPx > 0.0
    ensures var corner := dragPos - TDiv(sizePx, 2) as real - containerOffset;
            corner / cellPx - 0.5 < i as real <= corner / cellPx + 0.5
  {
    RoundToInt((dragPos - TDiv(sizePx, 2) as real - containerOffset) / cellPx)
  }

  /** A cell count moved by a drag of `dragPx` pixels, rounded to whole cells. */
  function Stepped(cells: int, dragPx: real, cellPx: real): (n: int)
    requires cellPx > 0.0
    ensures cells as real + dragPx / cellPx - 0.5 < n as real <= cells as real + dragPx / cellPx + 0.5
  {
    RoundToInt(cells as real + dragPx / cellPx)
  }

  class ItemCard {
    /** The `item` parameter of the latest composition. */
    var item: GridItem
    /** The item captured by the running gesture handler. */
    var handlerItem: GridItem
    /** The cards it is checked against, as the running gesture handler captured them. */
    var handlerOthers: seq<Placed>
    /** The grid settings, as the running gesture handler captured them. */
    var handlerConfig: GridLayoutConfig
    var offsetX: int
    var offsetY: int
    var widthInCells: int
    var heightInCells: int
    var isResizing: bool
    var windowOffsetX: real
    var windowOffsetY: real

    /** The card's cells as the card currently draws its outline. */
    function Bounds(): Rect
      reads this
    {
      Rect(offsetX, offsetY, widthInCells, heightInCells)
    }

    /** The first composition, with the cards it is checked against and the grid settings. */
    constructor(item: GridItem, items: seq<GridItem>, config: GridLayoutConfig)
      ensures this.item == item && handlerItem == item
      ensures handlerOthers == Footprints(items) && handlerConfig == config
      ensures Bounds() == Footprint(item).bounds
      ensures !isResizing && windowOffsetX == 0.0 && windowOffsetY == 0.0
    {
      this.item := item;
      handlerItem, handlerOthers, handlerConfig := item, Footprints(items), config;
      offsetX := Footprint(item).bounds.x;
      offsetY := Footprint(item).bounds.y;
      widthInCells := Footprint(item).bounds.width;
      heightInCells := Footprint(item).bounds.height;
      isResizing := false;
      windowOffsetX, windowOffsetY := 0.0, 0.0;
    }

    /**
     * A new composition with `newItem`. A changed item re-runs the effect
     * that copies its cell and size into the card; a changed id restarts the
     * gesture handler with the new item, cards and grid settings.
     */
    method Recompose(newItem: GridItem, items: seq<GridItem>, config: GridLayoutConfig)
      modifies this
      ensures item == newItem
      ensures newItem != old(item) ==> Bounds() == Footprint(newItem).bounds
      ensures newItem == old(item) ==> Bounds() == old(Bounds())
      ensures Id(newItem) != Id(old(handlerItem)) ==>
        handlerItem == newItem && handlerOthers == Footprints(items) && handlerConfig == config
      ensures Id(newItem) == Id(old(handlerItem)) ==>
        handlerItem == old(handlerItem) && handlerOthers == old(handlerOthers) && handlerConfig == old(handlerConfig)
      ensures isResizing == old(isResizing) && windowOffsetX == old(windowOffsetX) && windowOffsetY == old(windowOffsetY)
    {
      if newItem != item {
        offsetX := Footprint(newItem).bounds.x;
        offsetY := Footprint(newItem).bounds.y;
        widthInCells := Footprint(newItem).bounds.width;
        heightInCells := Footprint(newItem).bounds.height;
      }
      if Id(newItem) != Id(handlerItem) {
        handlerItem, handlerOthers, handlerConfig := newItem, Footprints(items), config;
      }
      item := newItem;
    }

    /** The card was laid out with its top-left corner at this window position. */
    method Positioned(x: real, y: real)
      modifies this
      ensures windowOffsetX == x && windowOffsetY == y
      ensures item == old(item) && handlerItem == old(handlerItem) && handlerOthers == old(handlerOthers) && handlerConfig == old(handlerConfig) && Bounds() == old(Bounds()) && isResizing == old(isResizing)
    {
      windowOffsetX, windowOffsetY := x, y;
    }

    /**
     * A drag starts at `(startX, startY)` inside a card of the given pixel
     * size: in the `handlePx` square at the bottom-right corner it is a
     * resize, anywhere else a move that the drag controller starts showing.
     */
    method DragStart(dc: DragController, startX: real, startY: real, widthPx: int, heightPx: int, handlePx: real)
      modifies this, dc
      ensures isResizing <==> startX > widthPx as real - handlePx && startY > heightPx as real - handlePx
      ensures isResizing ==> dc.dragInfo == old(dc.dragInfo)
      ensures !isResizing ==> dc.dragInfo == Some(DragInfo(handlerItem, windowOffsetX + startX, windowOffsetY + startY,
                                                           widthPx, heightPx, CardPreview(handlerItem)))
      ensures item == old(item) && handlerItem == old(handlerItem) && handlerOthers == old(handlerOthers) && handlerConfig == old(handlerConfig) && Bounds() == old(Bounds())
      ensures windowOffsetX == old(windowOffsetX) && windowOffsetY == old(windowOffsetY)
    {
      isResizing := startX > widthPx as real - handlePx && startY > heightPx as real - handlePx;
      if !isResizing {
        dc.StartDrag(handlerItem, windowOffsetX + startX, windowOffsetY + startY, widthPx, heightPx, CardPreview(handlerItem));
      }
    }

    /**
     * One drag event: the touch point is at `(pointerX, pointerY)` in the card and
     * moved by `(dragX, dragY)` pixels. A resize proposes the rounded new size,
     * a move the rounded new cell; either is clamped and kept only if no other
     * card the handler captured collides.
     */
    method Drag(dc: DragController, pointerX: real, pointerY: real, dragX: real, dragY: real, cellWidthPx: real, cellHeightPx: real)
      requires cellWidthPx > 0.0 && cellHeightPx > 0.0
      requires isResizing ==> CanClampResize(handlerConfig, offsetX, offsetY)
      requires !isResizing ==> CanClampMove(handlerConfig, widthInCells, heightInCells)
      modifies this, dc
      ensures item == old(item) && handlerItem == old(handlerItem) && handlerOthers == old(handlerOthers) && handlerConfig == old(handlerConfig) && isResizing == old(isResizing)
      ensures old(isResizing) ==>
        Bounds() == TryResize(handlerOthers, Id(handlerItem), old(Bounds()), handlerConfig,
                              Stepped(old(widthInCells), dragX, cellWidthPx),
                              Stepped(old(heightInCells), dragY, cellHeightPx))
      ensures old(isResizing) ==> dc.dragInfo == old(dc.dragInfo)
      ensures !old(isResizing) ==>
        Bounds() == TryMove(handlerOthers, Id(handlerItem), old(Bounds()), handlerConfig,
                            Stepped(old(offsetX), dragX, cellWidthPx),
                            Stepped(old(offsetY), dragY, cellHeightPx))
      ensures !old(isResizing) && old(dc.dragInfo).Some? ==>
        dc.dragInfo == Some(old(dc.dragInfo).value.(dragX := windowOffsetX + pointerX, dragY := windowOffsetY + pointerY))
      ensures !old(isResizing) && old(dc.dragInfo).None? ==> dc.dragInfo == None
      ensures windowOffsetX == old(windowOffsetX) && windowOffsetY == old(windowOffsetY)
    {
      if isResizing {
        var r := TryResize(handlerOthers, Id(handlerItem), Bounds(), handlerConfig,
                           Stepped(widthInCells, dragX, cellWidthPx),
                           Stepped(heightInCells, dragY, cellHeightPx));
        widthInCells, heightInCells := r.width, r.height;
      } else {
        dc.UpdateDrag(windowOffsetX + pointerX, windowOffsetY + pointerY);
        var r := TryMove(handlerOthers, Id(handlerItem), Bounds(), handlerConfig,
                         Stepped(offsetX, dragX, cellWidthPx),
                         Stepped(offsetY, dragY, cellHeightPx));
        offsetX, offsetY := r.x, r.y;
      }
    }

    /**
     * The finger is lifted. After a move, the controller's last position is
     * snapped to a cell (reverting to the handler item's own cell on a
     * collision) and the drag ends; after a resize nothing moves. Either way
     * the item is reported at the card's cell and size.
     */
    method DragEnd(dc: DragController, gridOffsetX: real, gridOffsetY: real, cellWidthPx: real, cellHeightPx: real)
      returns (updated: GridItem)
      requires cellWidthPx > 0.0 && cellHeightPx > 0.0
      requires !isResizing && dc.dragInfo.Some? ==> CanClampMove(handlerConfig, widthInCells, heightInCells)
      modifies this, dc
      ensures item == old(item) && handlerItem == old(handlerItem) && handlerOthers == old(handlerOthers) && handlerConfig == old(handlerConfig) && isResizing == old(isResizing)
      ensures old(isResizing) ==> Bounds() == old(Bounds()) && dc.dragInfo == old(dc.dragInfo)
      ensures !old(isResizing) ==> dc.dragInfo == None
      ensures !old(isResizing) && old(dc.dragInfo).None? ==> Bounds() == old(Bounds())
      ensures !old(isResizing) && old(dc.dragInfo).Some? ==>
        var d := old(dc.dragInfo).value;
        Bounds() == SnapDrop(handlerOthers, Id(handlerItem), Footprint(handlerItem).bounds, old(Bounds()), handlerConfig,
                             SnapIndex(d.dragX, d.widthPx, gridOffsetX, cellWidthPx),
                             SnapIndex(d.dragY, d.heightPx, gridOffsetY, cellHeightPx))
      ensures updated == CopyWithNewGridValues(handlerItem, offsetX, offsetY, widthInCells, heightInCells)
      ensures windowOffsetX == old(windowOffsetX) && windowOffsetY == old(windowOffsetY)
    {
      if !isResizing {
        var currentDragInfo := dc.dragInfo;
        dc.EndDrag();
        if currentDragInfo.Some? {
          var d := currentDragInfo.value;
          var r := SnapDrop(handlerOthers, Id(handlerItem), Footprint(handlerItem).bounds, Bounds(), handlerConfig,
                            SnapIndex(d.dragX, d.widthPx, gridOffsetX, cellWidthPx),
                            SnapIndex(d.dragY, d.heightPx, gridOffsetY, cellHeightPx));
          offsetX, offsetY := r.x, r.y;
        }
      }
      updated := CopyWithNewGridValues(handlerItem, offsetX, offsetY, widthInCells, heightInCells);
    }
  }
}
