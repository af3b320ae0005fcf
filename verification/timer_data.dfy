/**
 * A countdown timer card (`Timers/Timer.kt`): its configured and remaining
 * seconds, its running / finished / dismissed flags, and its grid cell.
 */
module TimerData {
  import opened Wrappers
  import opened Grid
  import TimerText

  datatype Timer = Timer(
    id: string,
    initialSeconds: int,
    remainingSeconds: int,
    isRunning: bool,
    isFinished: bool,
    useOnce: bool,
    isDismissed: bool,
    x: int,
    y: int,
    width: int,
    height: int)

  /** A timer built with only the required fields: every other field at its default. */
  function NewTimer(id: string, initialSeconds: int, remainingSeconds: int): (t: Timer)
    ensures t.id == id && t.initialSeconds == initialSeconds && t.remainingSeconds == remainingSeconds
    ensures !t.isRunning && !t.isFinished && t.useOnce && !t.isDismissed
    ensures t.x == 0 && t.y == 0 && t.width == 1 && t.height == 1
  {
    Timer(id, initialSeconds, remainingSeconds, false, false, true, false, 0, 0, 1, 1)
  }

  /** The timer's cells on the grid. */
  function Footprint(t: Timer): (p: Placed)
    ensures p.id == t.id && p.bounds == Rect(t.x, t.y, t.width, t.height)
  {
    Placed(t.id, Rect(t.x, t.y, t.width, t.height))
  }

  /** The same timer at another cell and size. */
  function CopyWithNewGridValues(t: Timer, x: int, y: int, width: int, height: int): (r: Timer)
    ensures Footprint(r) == Placed(t.id, Rect(x, y, width, height))
    ensures r.(x := t.x, y := t.y, width := t.width, height := t.height) == t
  {
    t.(x := x, y := y, width := width, height := height)
  }

  /** Moving a timer and moving it back gives the timer it was. */
  lemma CopyWithOwnGridValues(t: Timer, x: int, y: int, width: int, height: int)
    ensures CopyWithNewGridValues(CopyWithNewGridValues(t, x, y, width, height), t.x, t.y, t.width, t.height) == t
  {
  }

  /** The remaining time as shown on the card; it reads back to the remaining seconds. */
  function GetTimeString(t: Timer): (s: string)
    ensures t.remainingSeconds >= 0 ==> TimerText.Read(s) == Some(t.remainingSeconds)
    ensures t.remainingSeconds >= 0 ==> TimerText.Layout(s, t.remainingSeconds)
  {
    if t.remainingSeconds >= 0 then
      TimerText.ReadRender(t.remainingSeconds);
      TimerText.RenderLayout(t.remainingSeconds);
      TimerText.Render(t.remainingSeconds)
    else TimerText.Render(t.remainingSeconds)
  }
}
