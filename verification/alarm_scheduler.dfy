/**
 * When an alarm goes off (`Alarms/AndroidAlarmScheduler.kt`, `schedule`):
 * today at the alarm's time of day, or tomorrow at that time when today's
 * moment is already past. The clock and calendar readings are parameters.
 */
module AlarmScheduler {
  import opened AlarmData

  const NanosPerDay: int := 86400 * 1_000_000_000

  /** `java.time.LocalDateTime`: a day number and a time of day. */
  datatype DateTime = DateTime(day: int, time: Time)

  /** Nanoseconds since midnight. */
  function NanoOfDay(t: Time): (n: int)
    ensures 0 <= n < NanosPerDay
  {
    ((t.hour * 60 + t.minute) * 60 + t.second) * 1_000_000_000 + t.nano
  }

  /** Position on the time line, in nanoseconds from the start of day 0. */
  function Stamp(dt: DateTime): int {
    dt.day * NanosPerDay + NanoOfDay(dt.time)
  }

  /** `a.isBefore(b)`: an earlier day, or the same day and an earlier time. */
  predicate IsBefore(a: DateTime, b: DateTime) {
    a.day < b.day || (a.day == b.day && NanoOfDay(a.time) < NanoOfDay(b.time))
  }

  /** `isBefore` is the order of the time line. */
  lemma IsBeforeIsEarlier(a: DateTime, b: DateTime)
    ensures IsBefore(a, b) <==> Stamp(a) < Stamp(b)
  {
    if a.day < b.day {
      assert Stamp(a) < (a.day + 1) * NanosPerDay <= b.day * NanosPerDay <= Stamp(b);
    } else if a.day > b.day {
      assert Stamp(b) < (b.day + 1) * NanosPerDay <= a.day * NanosPerDay <= Stamp(a);
    }
  }

  /**
   * The trigger for an alarm at `time`, with `now` the clock reading and
   * `today` the separately read current date: today at `time` unless that is
   * strictly before `now`, then the day after.
   */
  function NextTrigger(now: DateTime, today: int, time: Time): (trigger: DateTime)
    ensures trigger.time == time
    ensures trigger.day == today || trigger.day == today + 1
    ensures trigger.day == today + 1 <==> IsBefore(DateTime(today, time), now)
  {
    var alarmDateTime := DateTime(today, time);
    if IsBefore(alarmDateTime, now) then DateTime(today + 1, time) else alarmDateTime
  }

  /**
   * When both readings fall on the same day, the trigger is never before now
   * and comes less than a day after it.
   */
  lemma TriggerWithinADay(now: DateTime, time: Time)
    ensures !IsBefore(NextTrigger(now, now.day, time), now)
    ensures Stamp(now) <= Stamp(NextTrigger(now, now.day, time)) < Stamp(now) + NanosPerDay
  {
    var trigger := NextTrigger(now, now.day, time);
    IsBeforeIsEarlier(trigger, now);
    IsBeforeIsEarlier(DateTime(now.day, time), now);
  }

  /**
   * The date is read after the clock: if midnight passes between the two
   * readings, an alarm due at the very moment of the clock reading is put a
   * whole day later instead of now.
   */
  lemma MidnightBetweenReadings(now: DateTime)
    ensures NextTrigger(now, now.day, now.time) == now
    ensures NextTrigger(now, now.day + 1, now.time) == DateTime(now.day + 1, now.time)
    ensures Stamp(NextTrigger(now, now.day + 1, now.time)) == Stamp(now) + NanosPerDay
  {
  }

  /** Seconds since the epoch at the given zone offset, as `toEpochSecond()`. */
  function EpochSecond(dt: DateTime, offsetSeconds: int): int {
    dt.day * 86400 + (dt.time.hour * 60 + dt.time.minute) * 60 + dt.time.second - offsetSeconds
  }

  /** The time handed to the alarm manager: whole epoch seconds times 1000, the fraction of a second dropped. */
  function TriggerMillis(dt: DateTime, offsetSeconds: int): (ms: int)
    ensures ms % 1000 == 0 && ms / 1000 == EpochSecond(dt, offsetSeconds)
    ensures ms * 1_000_000 <= Stamp(dt) - offsetSeconds * 1_000_000_000 < ms * 1_000_000 + 1_000_000_000
  {
    EpochSecond(dt, offsetSeconds) * 1000
  }
}
