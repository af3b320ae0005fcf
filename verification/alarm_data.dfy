/**
 * An alarm card (`Alarms/Alarm.kt`): a wall-clock time of day, whether it
 * fires once, whether it is enabled, a message, and its grid cell.
 */
module AlarmData {
  import opened KotlinText
  import opened Grid

  /** `java.time.LocalTime`: hour, minute, second and nanosecond of a day. */
  datatype LocalTime = LocalTime(hour: int, minute: int, second: int, nano: int) {
    predicate Valid() {
      0 <= hour < 24 && 0 <= minute < 60 && 0 <= second < 60 && 0 <= nano < 1_000_000_000
    }
  }

  type Time = t: LocalTime | t.Valid() witness LocalTime(0, 0, 0, 0)

  /** `LocalTime.of(hour, minute)`; the time picker only offers valid values. */
  function TimeOf(hour: int, minute: int): (t: Time)
    requires 0 <= hour < 24 && 0 <= minute < 60
    ensures t.hour == hour && t.minute == minute && t.second == 0 && t.nano == 0
  {
    LocalTime(hour, minute, 0, 0)
  }

  datatype Alarm = Alarm(
    id: string,
    time: Time,
    useOnce: bool,
    isEnabled: bool,
    message: string,
    x: int,
    y: int,
    width: int,
    height: int)

  /** An alarm built from its required fields: enabled, no message, one cell at `(x, y)`. */
  function NewAlarm(id: string, time: Time, useOnce: bool, x: int, y: int): (a: Alarm)
    ensures a.id == id && a.time == time && a.useOnce == useOnce
    ensures a.isEnabled && a.message == ""
    ensures a.x == x && a.y == y && a.width == 1 && a.height == 1
  {
    Alarm(id, time, useOnce, true, "", x, y, 1, 1)
  }

  /** The alarm's cells on the grid. */
  function Footprint(a: Alarm): (p: Placed)
    ensures p.id == a.id && p.bounds == Rect(a.x, a.y, a.width, a.height)
  {
    Placed(a.id, Rect(a.x, a.y, a.width, a.height))
  }


  /** The same alarm at another cell and size. */
  function CopyWithNewGridValues(a: Alarm, x: int, y: int, width: int, height: int): (r: Alarm)
    ensures Footprint(r) == Placed(a.id, Rect(x, y, width, height))
    ensures r.(x := a.x, y := a.y, width := a.width, height := a.height) == a
  {
    a.(x := x, y := y, width := width, height := height)
  }

  /**
   * The `HH:mm` text: two-digit hour, a colon, two-digit minute; the seconds
   * are not shown.
   */
  function GetTimeString(a: Alarm): (s: string)
    ensures |s| == 5 && s[2] == ':'
    ensures AllDigits(s[..2]) && ParseDigits(s[..2]) == a.time.hour
    ensures AllDigits(s[3..]) && ParseDigits(s[3..]) == a.time.minute
  {
    var s := Pad2(a.time.hour) + ":" + Pad2(a.time.minute);
    ParsePad2(a.time.hour);
    ParsePad2(a.time.minute);
    assert s[..2] == Pad2(a.time.hour) && s[3..] == Pad2(a.time.minute);
    s
  }

  /** Two alarms show the same text exactly when they ring at the same hour and minute. */
  lemma SameTextSameMinute(a: Alarm, b: Alarm)
    ensures GetTimeString(a) == GetTimeString(b) <==> (a.time.hour == b.time.hour && a.time.minute == b.time.minute)
  {
    if a.time.hour == b.time.hour && a.time.minute == b.time.minute {
      assert GetTimeString(a) == Pad2(a.time.hour) + ":" + Pad2(a.time.minute);
      assert GetTimeString(b) == Pad2(b.time.hour) + ":" + Pad2(b.time.minute);
    }
  }
}
