/**
 * The older timers page (`TimersScreen.kt`). Its timer card runs the same
 * countdown and buttons as the current page (without the finish callback)
 * but handles gestures itself: a drag on the card body resizes from the
 * bottom-right corner or moves otherwise, and two round handles move or
 * resize the card. Its gesture handlers are started once per card and keep
 * the timer they were started with.
 */
module LegacyTimersScreen {
  import opened Grid
  import opened TimerData
  import opened TimersScreen
  import Card
  import GridItems

  class LegacyTimerCard {
    /** Countdown, reset, play/pause, +1:00 and close, as on the current page. */
    const countdown: TimerCard
    /** The timer captured by the gesture handlers. */
    const handlerTimer: Timer
    /** The other timers' footprints, as the gesture handlers captured them. */
    const handlerOthers: seq<Placed>
    /** The grid settings, as the gesture handlers captured them. */
    const handlerConfig: GridLayoutConfig
    var offsetX: int
    var offsetY: int
    var widthInCells: int
    var heightInCells: int
    var isResizing: bool
    var isDragging: bool

    function Bounds(): Rect
      reads this
    {
      Rect(offsetX, offsetY, widthInCells, heightInCells)
    }

    /** The card's first composition, with the page's timers and grid settings at that moment. */
    constructor(t: Timer, timers: seq<Timer>, config: GridLayoutConfig)
      ensures fresh(countdown) && countdown.timer == t && countdown.effectTimer == t
      ensures countdown.effectState == countdown.state
      ensures countdown.state.remaining == t.remainingSeconds && countdown.state.running == t.isRunning
      ensures handlerTimer == t && handlerOthers == GridItems.Footprints(GridItems.TimerItems(timers)) && handlerConfig == config
      ensures Bounds() == Footprint(t).bounds
      ensures !isResizing && !isDragging
    {
      countdown := new TimerCard(t);
      handlerTimer, handlerOthers, handlerConfig := t, GridItems.Footprints(GridItems.TimerItems(timers)), config;
      offsetX, offsetY, widthInCells, heightInCells := t.x, t.y, t.width, t.height;
      isResizing, isDragging := false, false;
    }

    /**
     * A later composition with `t`: a changed timer re-syncs the cell and
     * size; the countdown reacts as on the current page (a new id brings a
     * new countdown state, and the effect restarts only on a change of the
     * running flag); the gesture handlers are kept.
     */
    method Recompose(t: Timer)
      modifies this, countdown
      ensures countdown.timer == t
      ensures t.id == old(countdown.timer.id) ==> countdown.state == old(countdown.state)
      ensures t.id != old(countdown.timer.id) ==>
        fresh(countdown.state) && countdown.state.remaining == t.remainingSeconds && countdown.state.running == t.isRunning
        && countdown.state.finished == t.isFinished && countdown.state.dismissed == t.isDismissed
      ensures t.id != old(countdown.timer.id) && t.isRunning != old(countdown.state.running) ==>
        countdown.effectState == countdown.state && countdown.effectTimer == t
      ensures !(t.id != old(countdown.timer.id) && t.isRunning != old(countdown.state.running)) ==>
        countdown.effectState == old(countdown.effectState) && countdown.effectTimer == old(countdown.effectTimer)
      ensures t != old(countdown.timer) ==> Bounds() == Footprint(t).bounds
      ensures t == old(countdown.timer) ==> Bounds() == old(Bounds())
      ensures isResizing == old(isResizing) && isDragging == old(isDragging)
    {
      if t != countdown.timer {
        offsetX, offsetY, widthInCells, heightInCells := t.x, t.y, t.width, t.height;
      }
      countdown.Recompose(t);
    }

    /** A drag on the card body starts: inside the `handlePx` bottom-right square it resizes. */
    method BodyDragStart(startX: real, startY: real, widthPx: int, heightPx: int, handlePx: real)
      modifies this
      ensures isDragging && forall showEdges: bool :: Outlined(showEdges)
      ensures isResizing <==> startX > widthPx as real - handlePx && startY > heightPx as real - handlePx
      ensures Bounds() == old(Bounds())
    {
      isDragging := true;
      isResizing := startX > widthPx as real - handlePx && startY > heightPx as real - handlePx;
    }

    /** One drag event on the card body, moved by `(dragX, dragY)` pixels. */
    method BodyDrag(dragX: real, dragY: real, cellWidthPx: real, cellHeightPx: real)
      requires cellWidthPx > 0.0 && cellHeightPx > 0.0
      requires isResizing ==> CanClampResize(handlerConfig, offsetX, offsetY)
      requires !isResizing ==> CanClampMove(handlerConfig, widthInCells, heightInCells)
      modifies this
      ensures old(isResizing) ==>
        Bounds() == TryResize(handlerOthers, handlerTimer.id, old(Bounds()), handlerConfig,
                              Card.RoundToInt(old(widthInCells) as real + dragX / cellWidthPx),
                              Card.RoundToInt(old(heightInCells) as real + dragY / cellHeightPx))
      ensures !old(isResizing) ==>
        Bounds() == TryMove(handlerOthers, handlerTimer.id, old(Bounds()), handlerConfig,
                            Card.RoundToInt(old(offsetX) as real + dragX / cellWidthPx),
                            Card.RoundToInt(old(offsetY) as real + dragY / cellHeightPx))
      ensures isResizing == old(isResizing) && isDragging == old(isDragging)
    {
      if isResizing {
        HandleResize(dragX, dragY, cellWidthPx, cellHeightPx);
      } else {
        HandleMove(dragX, dragY, cellWidthPx, cellHeightPx);
      }
    }

    /**
     * One drag event on the top-left move handle. The handle divides the
     * pixel drag amount by `cellWidth` and `cellHeight` as given, which on
     * that handle are the cell sizes in density-independent units.
     */
    method HandleMove(dragX: real, dragY: real, cellWidth: real, cellHeight: real)
      requires cellWidth > 0.0 && cellHeight > 0.0
      requires CanClampMove(handlerConfig, widthInCells, heightInCells)
      modifies this
      ensures Bounds() == TryMove(handlerOthers, handlerTimer.id, old(Bounds()), handlerConfig,
                                  Card.RoundToInt(old(offsetX) as real + dragX / cellWidth),
                                  Card.RoundToInt(old(offsetY) as real + dragY / cellHeight))
      ensures isResizing == old(isResizing) && isDragging == old(isDragging)
    {
      var r := TryMove(handlerOthers, handlerTimer.id, Bounds(), handlerConfig,
                       Card.RoundToInt(offsetX as real + dragX / cellWidth),
                       Card.RoundToInt(offsetY as real + dragY / cellHeight));
      offsetX, offsetY := r.x, r.y;
    }

    /** One drag event on the bottom-right resize handle, in the same units as `HandleMove`. */
    method HandleResize(dragX: real, dragY: real, cellWidth: real, cellHeight: real)
      requires cellWidth > 0.0 && cellHeight > 0.0
      requires CanClampResize(handlerConfig, offsetX, offsetY)
      modifies this
      ensures Bounds() == TryResize(handlerOthers, handlerTimer.id, old(Bounds()), handlerConfig,
                                    Card.RoundToInt(old(widthInCells) as real + dragX / cellWidth),
                                    Card.RoundToInt(old(heightInCells) as real + dragY / cellHeight))
      ensures isResizing == old(isResizing) && isDragging == old(isDragging)
    {
      var r := TryResize(handlerOthers, handlerTimer.id, Bounds(), handlerConfig,
                         Card.RoundToInt(widthInCells as real + dragX / cellWidth),
                         Card.RoundToInt(heightInCells as real + dragY / cellHeight));
      widthInCells, heightInCells := r.width, r.height;
    }

    /**
     * A drag ends, on the body (`onBody`) or on a handle: the captured timer
     * is reported at the card's cell and size; a body drag also stops the
     * outline.
     */
    method DragEnd(onBody: bool) returns (updated: Timer)
      modifies this
      ensures updated == CopyWithNewGridValues(handlerTimer, offsetX, offsetY, widthInCells, heightInCells)
      ensures Bounds() == old(Bounds()) && isResizing == old(isResizing)
      ensures isDragging == (old(isDragging) && !onBody)
      ensures onBody ==> forall showEdges: bool :: Outlined(showEdges) == showEdges
    {
      if onBody {
        isDragging := false;
      }
      updated := handlerTimer.(x := offsetX, y := offsetY, width := widthInCells, height := heightInCells);
    }

    /**
     * The card is outlined while dragged or when the grid shows its edges:
     * with edges shown every card is outlined, otherwise exactly the card
     * being dragged by its body.
     */
    function Outlined(showEdges: bool): (outlined: bool)
      reads this
      ensures showEdges ==> outlined
      ensures !showEdges ==> (outlined <==> isDragging)
    {
      isDragging || showEdges
    }
  }
}
