/**
 * The single stopwatch page (`StopwatchScreen.kt`): start/stop/resume by
 * shifting the start time over pauses, laps numbered from one, reset, and
 * the `MM:SS:CC` display. The wall clock is a parameter of every step.
 */
module Stopwatch {
  import opened KotlinText

  /** A lap: its number, its own duration and the elapsed time when it ended (milliseconds). */
  datatype Lap = Lap(lapNumber: int, lapDuration: int, lapFinish: int)

  /** The summed durations of a list of laps. */
  function TotalDuration(laps: seq<Lap>): int {
    if |laps| == 0 then 0 else TotalDuration(laps[..|laps| - 1]) + laps[|laps| - 1].lapDuration
  }

  // ------------------------------------------------------------- the display

  /**
   * Minutes, seconds and hundredths of `milliseconds`, with Kotlin's
   * truncating `/` and `%` on `Long`: `((ms / 1000) / 60) % 60`,
   * `(ms / 1000) % 60`, `(ms % 1000) / 10`.
   */
  function Fields(milliseconds: int): (f: (int, int, int))
    ensures milliseconds >= 0 ==> 0 <= f.0 < 60 && 0 <= f.1 < 60 && 0 <= f.2 < 100
    ensures milliseconds >= 0 ==>
      f.0 * 60000 + f.1 * 1000 + f.2 * 10 == milliseconds % 3600000 - milliseconds % 10
  {
    var totalSeconds := TDiv(milliseconds, 1000);
    var f := (TRem(TDiv(totalSeconds, 60), 60), TRem(totalSeconds, 60), TDiv(TRem(milliseconds, 1000), 10));
    if milliseconds >= 0 then
      FieldsRecombine(milliseconds);
      f
    else f
  }

  lemma FieldsRecombine(ms: nat)
    ensures (ms / 1000 / 60) % 60 * 60000 + (ms / 1000) % 60 * 1000 + (ms % 1000) / 10 * 10
            == ms % 3600000 - ms % 10
  {
    var q, r := ms / 1000, ms % 1000;
    var h, s := q / 60, q % 60;
    var hh, m := h / 60, h % 60;
    var c, u := r / 10, r % 10;
    assert ms == 1000 * q + r && q == 60 * h + s && h == 60 * hh + m && r == 10 * c + u;
    var inner := 60000 * m + 1000 * s + 10 * c + u;
    assert ms == 3600000 * hh + inner;
    DivModOf(ms, 3600000, hh, inner);
    DivModOf(ms, 10, 360000 * hh + 6000 * m + 100 * s + c, u);
  }

  /** `formatTime`: `"%02d:%02d:%02d"` of minutes, seconds and hundredths. */
  function FormatTime(milliseconds: int): (s: string)
    ensures milliseconds >= 0 ==> |s| == 8 && s[2] == ':' && s[5] == ':'
  {
    var f := Fields(milliseconds);
    Pad2(f.0) + ":" + Pad2(f.1) + ":" + Pad2(f.2)
  }

  /** The display reads back as the time modulo one hour, to the hundredth of a second. */
  lemma ReadFormatTime(milliseconds: nat)
    ensures
      var s := FormatTime(milliseconds);
      AllDigits(s[..2]) && AllDigits(s[3..5]) && AllDigits(s[6..])
      && ParseDigits(s[..2]) * 60000 + ParseDigits(s[3..5]) * 1000 + ParseDigits(s[6..]) * 10
         == milliseconds % 3600000 - milliseconds % 10
  {
    var f := Fields(milliseconds);
    var s := FormatTime(milliseconds);
    ParsePad2(f.0);
    ParsePad2(f.1);
    ParsePad2(f.2);
    assert s[..2] == Pad2(f.0);
    assert s[3..5] == Pad2(f.1);
    assert s[6..] == Pad2(f.2);
  }

  /** Whole hours are dropped: an hour later the display is the same. */
  lemma {:induction false} FormatTimeDropsHours(milliseconds: nat)
    ensures FormatTime(milliseconds + 3600000) == FormatTime(milliseconds)
  {
    var a, b := milliseconds, milliseconds + 3600000;
    var q, r := a / 1000, a % 1000;
    DivModOf(b, 1000, q + 3600, r);
    assert TDiv(b, 1000) == q + 3600 && TRem(b, 1000) == r;
    var h := q / 60;
    DivModOf(q + 3600, 60, h + 60, q % 60);
    assert TDiv(q + 3600, 60) == h + 60 && TRem(q + 3600, 60) == TRem(q, 60);
    DivModOf(h + 60, 60, h / 60 + 1, h % 60);
    assert TRem(h + 60, 60) == TRem(h, 60);
    assert Fields(b) == Fields(a);
  }

  // ------------------------------------------------------------ the page

  class StopwatchPage {
    var isRunning: bool
    var startTime: int
    var stopTime: int
    var elapsedTime: int
    var lastLapTime: int
    var laps: seq<Lap>
    var currentLap: Lap
    /** The latest clock reading the page has seen. */
    ghost var lastNow: int
    /** Running time of the segments before the current one. */
    ghost var banked: int
    /** When the current running segment began. */
    ghost var segmentStart: int

    /**
     * Laps are numbered 1, 2, …, the current lap comes next, their durations
     * add up to the time between the start and the last lap, and the start
     * time lags the clock by exactly the time spent running. The operations
     * accept any clock reading but keep this only while the clock does not
     * go back.
     */
    ghost predicate Valid()
      reads this
    {
      && (forall i :: 0 <= i < |laps| ==> laps[i].lapNumber == i + 1)
      && currentLap.lapNumber == |laps| + 1
      && startTime >= 0 && banked >= 0 && elapsedTime >= 0
      && (startTime == 0 ==> !isRunning && laps == [] && elapsedTime == 0 && banked == 0)
      && (startTime != 0 ==> TotalDuration(laps) == lastLapTime - startTime)
      && (isRunning ==> startTime + banked == segmentStart <= lastNow)
      && (!isRunning && startTime != 0 ==> stopTime - startTime == banked && stopTime <= lastNow)
    }

    constructor()
      ensures Valid() && !isRunning && laps == [] && currentLap == Lap(1, 0, 0)
      ensures startTime == 0 && elapsedTime == 0 && lastNow == 0
    {
      isRunning := false;
      startTime, stopTime, elapsedTime, lastLapTime := 0, 0, 0, 0;
      laps := [];
      currentLap := Lap(1, 0, 0);
      lastNow, banked, segmentStart := 0, 0, 0;
    }

    /** The running time shown, as the ghost bookkeeping counts it. */
    ghost function RunningTime(now: int): int
      reads this
    {
      if isRunning then banked + (now - segmentStart) else banked
    }

    /**
     * One step of the 10 ms refresh loop while running: the elapsed time is
     * the clock minus the start time, which is the time spent running
     * (pauses excluded), and the current lap is refreshed.
     */
    method Tick(now: int)
      requires isRunning
      modifies this
      ensures old(Valid()) && now >= old(lastNow) ==> Valid()
      ensures lastNow == now && elapsedTime == now - startTime
      ensures old(Valid()) ==> elapsedTime == RunningTime(now)
      ensures currentLap == old(currentLap).(lapDuration := now - lastLapTime, lapFinish := elapsedTime)
      ensures isRunning && laps == old(laps) && startTime == old(startTime) && lastLapTime == old(lastLapTime)
      ensures stopTime == old(stopTime) && banked == old(banked) && segmentStart == old(segmentStart)
    {
      elapsedTime := now - startTime;
      currentLap := currentLap.(lapDuration := now - lastLapTime, lapFinish := elapsedTime);
      lastNow := now;
    }

    /**
     * Start/Stop. Stopping records the clock. Starting from zero sets the
     * start and the last lap to the clock and restarts lap 1; resuming moves
     * the start and the last lap forward by the length of the pause.
     */
    method StartStop(now: int)
      modifies this
      ensures old(Valid()) && now >= old(lastNow) && now > 0 ==> Valid()
      ensures lastNow == now && isRunning == !old(isRunning)
      ensures old(isRunning) ==>
        stopTime == now && startTime == old(startTime) && lastLapTime == old(lastLapTime) && currentLap == old(currentLap)
        && RunningTime(now) == old(RunningTime(now))
      ensures !old(isRunning) && old(startTime) == 0 ==>
        startTime == now && lastLapTime == now && currentLap == Lap(1, 0, 0) && stopTime == old(stopTime)
      ensures !old(isRunning) && old(startTime) != 0 ==>
        startTime == old(startTime) + (now - old(stopTime)) && lastLapTime == old(lastLapTime) + (now - old(stopTime))
        && currentLap == old(currentLap) && stopTime == old(stopTime)
      ensures !old(isRunning) ==> RunningTime(now) == old(banked)
      ensures laps == old(laps) && elapsedTime == old(elapsedTime)
    {
      if isRunning {
        stopTime := now;
        banked := banked + (now - segmentStart);
      } else {
        if startTime == 0 {
          startTime := now;
          lastLapTime := startTime;
          currentLap := Lap(1, 0, 0);
        } else {
          var pausedDuration := now - stopTime;
          startTime := startTime + pausedDuration;
          lastLapTime := lastLapTime + pausedDuration;
        }
        segmentStart := now;
      }
      isRunning := !isRunning;
      lastNow := now;
    }

    /** The Lap button is shown while running or when time has been measured. */
    function LapEnabled(): bool
      reads this
    {
      currentLap.lapNumber > 0 && (isRunning || elapsedTime > 0)
    }

    /**
     * Lap: the current lap is recorded with its duration up to the clock and
     * the elapsed time as its finish, and the next lap, numbered one more
     * than the recorded laps, begins at the clock.
     */
    method RecordLap(now: int)
      requires LapEnabled()
      modifies this
      ensures old(Valid()) && now >= old(lastNow) ==> Valid()
      ensures lastNow == now
      ensures laps == old(laps) + [old(currentLap).(lapDuration := now - old(lastLapTime), lapFinish := old(elapsedTime))]
      ensures old(Valid()) ==> laps[|laps| - 1].lapNumber == |laps|
      ensures lastLapTime == now && currentLap == Lap(|laps| + 1, 0, 0)
      ensures isRunning == old(isRunning) && startTime == old(startTime) && stopTime == old(stopTime)
      ensures elapsedTime == old(elapsedTime)
    {
      var recorded := currentLap.(lapDuration := now - lastLapTime, lapFinish := elapsedTime);
      assert (laps + [recorded])[..|laps|] == laps;
      laps := laps + [recorded];
      lastLapTime := now;
      currentLap := Lap(|laps| + 1, 0, 0);
      lastNow := now;
    }

    /** Reset: stopped, no laps, lap 1, and start, stop and elapsed time zero. */
    method Reset()
      modifies this
      ensures Valid() && !isRunning && laps == [] && currentLap == Lap(1, 0, 0)
      ensures startTime == 0 && stopTime == 0 && elapsedTime == 0
      ensures lastLapTime == old(lastLapTime) && lastNow == old(lastNow)
    {
      isRunning := false;
      startTime, stopTime, elapsedTime := 0, 0, 0;
      laps := [];
      currentLap := Lap(1, 0, 0);
      banked := 0;
    }
  }

  /** For a page in a consistent state the Lap button depends only on running and elapsed time. */
  lemma LapEnabledWhenMeasuring(page: StopwatchPage)
    requires page.Valid()
    ensures page.LapEnabled() <==> page.isRunning || page.elapsedTime > 0
  {
  }
}
