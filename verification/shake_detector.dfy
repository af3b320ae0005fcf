/**
 * The shake detector (`ShakeDetector.kt`): three counted accelerometer peaks,
 * each more than 500 ms and less than 3000 ms after the previous one, make a
 * shake. The filtered acceleration is reduced to whether it is above the
 * threshold, and the clock is a parameter.
 */
module ShakeDetector {

  const ShakeSlopTimeMs: int := 500
  const ShakeCountResetTimeMs: int := 3000
  const ShakeMinMovements: int := 3

  /** The detector's memory: the last counted peak (0 when none) and how many have been counted. */
  datatype ShakeState = ShakeState(timestamp: int, count: int) {
    /** Between events at most two peaks are pending, and none without a timestamp reset. */
    predicate Valid() {
      0 <= count < ShakeMinMovements && (count == 0 ==> timestamp == 0)
    }
  }

  const Initial: ShakeState := ShakeState(0, 0)

  /** A peak is counted when no peak is pending, or it follows the last one by more than 500 ms and less than 3000 ms. */
  predicate Counts(s: ShakeState, now: int) {
    s.timestamp == 0 || (now - s.timestamp > ShakeSlopTimeMs && now - s.timestamp < ShakeCountResetTimeMs)
  }

  /**
   * One sensor event: the new state and whether `onShake` runs. A counted
   * peak that completes three resets the detector and fires; a peak more
   * than 3000 ms after the last one resets it without being counted; every
   * other event changes nothing.
   */
  function Next(s: ShakeState, aboveThreshold: bool, now: int): (r: (ShakeState, bool))
    ensures s.Valid() ==> r.0.Valid()
    ensures r.1 <==> aboveThreshold && Counts(s, now) && s.count + 1 >= ShakeMinMovements
    ensures r.1 ==> r.0 == Initial
    ensures aboveThreshold && Counts(s, now) && !r.1 ==> r.0 == ShakeState(now, s.count + 1)
    ensures aboveThreshold && !Counts(s, now) && now - s.timestamp > ShakeCountResetTimeMs ==> r.0 == Initial
    ensures !aboveThreshold || (!Counts(s, now) && now - s.timestamp <= ShakeCountResetTimeMs) ==> r == (s, false)
  {
    if !aboveThreshold then (s, false)
    else if Counts(s, now) then
      var counted := ShakeState(now, s.count + 1);
      if counted.count >= ShakeMinMovements then (Initial, true) else (counted, false)
    else if now - s.timestamp > ShakeCountResetTimeMs then (Initial, false)
    else (s, false)
  }

  /** Three peaks spaced 500–3000 ms apart, from a fresh detector, fire once, on the third. */
  lemma ThreeSpacedPeaksShake(t0: int, t1: int, t2: int)
    requires ShakeSlopTimeMs < t1 - t0 < ShakeCountResetTimeMs
    requires ShakeSlopTimeMs < t2 - t1 < ShakeCountResetTimeMs
    ensures
      var e0 := Next(Initial, true, t0);
      var e1 := Next(e0.0, true, t1);
      var e2 := Next(e1.0, true, t2);
      !e0.1 && !e1.1 && e2.1 && e2.0 == Initial
  {
  }

  /**
   * A peak within 500 ms of the last counted one, or exactly 3000 ms after
   * it, is neither counted nor resets the detector.
   */
  lemma QuietGaps(s: ShakeState, now: int)
    requires s.timestamp != 0
    requires now - s.timestamp <= ShakeSlopTimeMs || now - s.timestamp == ShakeCountResetTimeMs
    ensures Next(s, true, now) == (s, false)
  {
  }

  /** A single peak never fires: at least three are needed. */
  lemma OnePeakNeverShakes(now: int)
    ensures Next(Initial, true, now) == (ShakeState(now, 1), false)
  {
  }

  class ShakeListener {
    var shakeTimestamp: int
    var shakeCount: int

    function State(): ShakeState
      reads this
    {
      ShakeState(shakeTimestamp, shakeCount)
    }

    constructor()
      ensures State() == Initial
    {
      shakeTimestamp, shakeCount := 0, 0;
    }

    /** `onSensorChanged`: returns whether `onShake` was called. */
    method OnSensorChanged(aboveThreshold: bool, now: int) returns (shook: bool)
      modifies this
      ensures (State(), shook) == Next(old(State()), aboveThreshold, now)
      ensures old(State()).Valid() ==> State().Valid()
    {
      shook := false;
      if aboveThreshold {
        if shakeTimestamp == 0 || (now - shakeTimestamp > ShakeSlopTimeMs && now - shakeTimestamp < ShakeCountResetTimeMs) {
          shakeTimestamp := now;
          shakeCount := shakeCount + 1;
          if shakeCount >= ShakeMinMovements {
            shook := true;
            shakeCount := 0;
            shakeTimestamp := 0;
          }
        } else if now - shakeTimestamp > ShakeCountResetTimeMs {
          shakeCount := 0;
          shakeTimestamp := 0;
        }
      }
    }
  }
}
