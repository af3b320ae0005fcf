/**
 * The older timer record (`TimerStorage.kt`): the same countdown fields as
 * the grid timer, without a grid cell.
 */
module LegacyTimerData {
  import opened Wrappers
  import TimerText

  datatype Timer = Timer(
    id: string,
    initialSeconds: int,
    remainingSeconds: int,
    isRunning: bool,
    isFinished: bool,
    useOnce: bool,
    isDismissed: bool)

  /** A timer built with only the required fields: every other field at its default. */
  function NewTimer(id: string, initialSeconds: int, remainingSeconds: int): (t: Timer)
    ensures t.id == id && t.initialSeconds == initialSeconds && t.remainingSeconds == remainingSeconds
    ensures !t.isRunning && !t.isFinished && t.useOnce && !t.isDismissed
  {
    Timer(id, initialSeconds, remainingSeconds, false, false, true, false)
  }

  /** The remaining time as text; it reads back to the remaining seconds. */
  function GetTimeString(t: Timer): (s: string)
    ensures t.remainingSeconds >= 0 ==> TimerText.Read(s) == Some(t.remainingSeconds)
    ensures t.remainingSeconds >= 0 ==> TimerText.Layout(s, t.remainingSeconds)
  {
    if t.remainingSeconds >= 0 then
      TimerText.ReadRender(t.remainingSeconds);
      TimerText.RenderLayout(t.remainingSeconds);
      TimerText.Render(t.remainingSeconds)
    else TimerText.Render(t.remainingSeconds)
  }
}
