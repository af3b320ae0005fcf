/**
 * The stopwatch card page (`StopwatchesScreen.kt`): a running segment is
 * timed from its own start, finished segments are banked in `pauseOffset`,
 * and the display is `MM:SS:CC` computed in a slightly different way from
 * the single stopwatch page.
 */
module Stopwatches {
  import opened KotlinText
  import Stopwatch

  /** `formatTime` of this page: minutes are `(ms / 60000) % 60`. */
  function FormatTime(milliseconds: int): (s: string)
    ensures milliseconds >= 0 ==> |s| == 8 && s[2] == ':' && s[5] == ':'
  {
    var minutes := TRem(TDiv(milliseconds, 1000 * 60), 60);
    var seconds := TRem(TDiv(milliseconds, 1000), 60);
    var centis := TDiv(TRem(milliseconds, 1000), 10);
    Pad2(minutes) + ":" + Pad2(seconds) + ":" + Pad2(centis)
  }

  lemma DivDiv(n: nat)
    ensures n / 1000 / 60 == n / 60000
  {
    var q, r := n / 1000, n % 1000;
    assert n == 60000 * (q / 60) + (1000 * (q % 60) + r);
    DivModOf(n, 60000, q / 60, 1000 * (q % 60) + r);
  }

  /** Both pages show every count of milliseconds, negative ones included, the same way. */
  lemma FormatTimeAgrees(milliseconds: int)
    ensures FormatTime(milliseconds) == Stopwatch.FormatTime(milliseconds)
  {
    if milliseconds >= 0 {
      DivDiv(milliseconds);
    } else {
      DivDiv(-milliseconds);
    }
  }

  class StopwatchCard {
    var isRunning: bool
    var startTime: int
    var pauseOffset: int
    var elapsedTime: int
    /** The latest clock reading the card has seen. */
    ghost var lastNow: int

    /**
     * Banked time is never negative, and a running segment did not start in
     * the future. The operations accept any clock reading but keep this only
     * while the clock does not go back.
     */
    ghost predicate Valid()
      reads this
    {
      pauseOffset >= 0 && elapsedTime >= 0 && (isRunning ==> startTime <= lastNow)
    }

    constructor()
      ensures Valid() && !isRunning && startTime == 0 && pauseOffset == 0 && elapsedTime == 0
    {
      isRunning, startTime, pauseOffset, elapsedTime := false, 0, 0, 0;
      lastNow := 0;
    }

    /** One refresh while running: banked time plus the current segment. */
    method Tick(now: int)
      requires isRunning
      modifies this
      ensures old(Valid()) && now >= old(lastNow) ==> Valid() && elapsedTime >= pauseOffset
      ensures lastNow == now && elapsedTime == pauseOffset + (now - startTime)
      ensures isRunning && startTime == old(startTime) && pauseOffset == old(pauseOffset)
    {
      elapsedTime := pauseOffset + (now - startTime);
      lastNow := now;
    }

    /**
     * Start/Stop: stopping banks the segment that just ended; starting opens
     * a new segment at the clock.
     */
    method Toggle(now: int)
      modifies this
      ensures old(Valid()) && now >= old(lastNow) ==> Valid()
      ensures lastNow == now && isRunning == !old(isRunning)
      ensures old(isRunning) ==> pauseOffset == old(pauseOffset) + (now - old(startTime)) && startTime == old(startTime)
      ensures !old(isRunning) ==> startTime == now && pauseOffset == old(pauseOffset)
      ensures elapsedTime == old(elapsedTime)
    {
      if isRunning {
        pauseOffset := pauseOffset + (now - startTime);
      } else {
        startTime := now;
      }
      isRunning := !isRunning;
      lastNow := now;
    }

    /**
     * The Reset button is shown only once some time has been measured; in a
     * consistent card that is any time other than zero.
     */
    function ResetShown(): (shown: bool)
      reads this
      ensures Valid() ==> (shown <==> elapsedTime != 0)
    {
      elapsedTime > 0
    }

    /** Reset: stopped, with no banked time and a zero display. */
    method Reset()
      requires ResetShown()
      modifies this
      ensures Valid() && !isRunning && startTime == 0 && pauseOffset == 0 && elapsedTime == 0
      ensures !ResetShown() && lastNow == old(lastNow)
    {
      isRunning := false;
      startTime := 0;
      pauseOffset := 0;
      elapsedTime := 0;
    }
  }

  /**
   * A clock set back while the card runs: started at 1000 ms, refreshed and
   * stopped at a reading of 400 ms, the display and the banked time are
   * -600 ms, and the Reset button is hidden.
   */
  method ClockSetBackHidesReset() returns (shown: int, banked: int, resetShown: bool)
    ensures shown == -600 && banked == -600 && !resetShown
  {
    var card := new StopwatchCard();
    card.Toggle(1000);
    card.Tick(400);
    card.Toggle(400);
    shown, banked, resetShown := card.elapsedTime, card.pauseOffset, card.ResetShown();
  }
}
