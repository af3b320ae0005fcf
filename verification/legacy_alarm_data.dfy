/**
 * The older alarm record (`Alarm.kt`): hour and minute as plain `Int`s,
 * whether it fires once, whether it is enabled, and its grid cell.
 */
module LegacyAlarmData {
  import opened KotlinText

  datatype Alarm = Alarm(
    id: string,
    hour: int,
    minute: int,
    useOnce: bool,
    isEnabled: bool,
    x: int,
    y: int,
    width: int,
    height: int)

  /** An alarm built from its required fields: enabled, one cell at `(0, 0)`. */
  function NewAlarm(id: string, hour: int, minute: int, useOnce: bool): (a: Alarm)
    ensures a.id == id && a.hour == hour && a.minute == minute && a.useOnce == useOnce
    ensures a.isEnabled && a.x == 0 && a.y == 0 && a.width == 1 && a.height == 1
  {
    Alarm(id, hour, minute, useOnce, true, 0, 0, 1, 1)
  }

  /** The same alarm at another cell and size. */
  function CopyWithNewGridValues(a: Alarm, x: int, y: int, width: int, height: int): (r: Alarm)
    ensures r.x == x && r.y == y && r.width == width && r.height == height
    ensures r.(x := a.x, y := a.y, width := a.width, height := a.height) == a
  {
    a.(x := x, y := y, width := width, height := height)
  }

  /**
   * `"%02d:%02d"` of hour and minute. Nothing bounds the fields, so the
   * `HH:MM` shape holds only while both are in `0 .. 99`.
   */
  function GetTimeString(a: Alarm): (s: string)
    ensures 0 <= a.hour < 100 && 0 <= a.minute < 100 ==>
      |s| == 5 && s[2] == ':' && AllDigits(s[..2]) && AllDigits(s[3..])
      && ParseDigits(s[..2]) == a.hour && ParseDigits(s[3..]) == a.minute
  {
    var s := Pad2(a.hour) + ":" + Pad2(a.minute);
    if 0 <= a.hour < 100 && 0 <= a.minute < 100 then
      ParsePad2(a.hour);
      ParsePad2(a.minute);
      assert s[..2] == Pad2(a.hour) && s[3..] == Pad2(a.minute);
      s
    else s
  }

  /** An hour of 100 or more widens the text: hour 100, minute 5 shows as `100:05`. */
  lemma WideHourText()
    ensures GetTimeString(NewAlarm("a", 100, 5, true)) == "100:05"
  {
    assert Dec(100) == Dec(10) + [DigitChar(0)];
    assert Dec(10) == Dec(1) + [DigitChar(0)];
  }
}
