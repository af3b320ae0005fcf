/**
 * The older alarms page (`AlarmsScreen.kt`, over the `Alarm` of `Alarm.kt`):
 * each card's switch and delete button, and the add dialog, each copy the
 * alarm list, edit the copy and hand it back.
 */
module AlarmsScreen {
  import opened Wrappers
  import opened LegacyAlarmData

  /** The index of the first element equal to `x`, or -1 (`List.indexOf`). */
  method IndexOf(alarms: seq<Alarm>, x: Alarm) returns (index: int)
    ensures -1 <= index < |alarms|
    ensures index == -1 <==> x !in alarms
    ensures index >= 0 ==> alarms[index] == x && x !in alarms[..index]
  {
    index := 0;
    while index < |alarms|
      invariant 0 <= index <= |alarms|
      invariant x !in alarms[..index]
    {
      if alarms[index] == x {
        return;
      }
      assert alarms[..index + 1] == alarms[..index] + [alarms[index]];
      index := index + 1;
    }
    assert alarms[..index] == alarms;
    index := -1;
  }

  /** `MutableList.remove(x)`: drops the first element equal to `x`, if any. */
  function RemoveFirst(alarms: seq<Alarm>, x: Alarm): (r: seq<Alarm>)
    ensures x in alarms ==> |r| == |alarms| - 1
    ensures x !in alarms ==> r == alarms
  {
    if |alarms| == 0 then []
    else if alarms[0] == x then alarms[1..]
    else [alarms[0]] + RemoveFirst(alarms[1..], x)
  }

  /** Removing the first `x` takes exactly one `x` out of the list and nothing else. */
  lemma {:induction false} RemoveFirstMultiset(alarms: seq<Alarm>, x: Alarm)
    ensures x in alarms ==> multiset(RemoveFirst(alarms, x)) + multiset{x} == multiset(alarms)
  {
    if |alarms| != 0 && alarms[0] != x {
      RemoveFirstMultiset(alarms[1..], x);
      assert alarms == [alarms[0]] + alarms[1..];
    } else if |alarms| != 0 {
      assert alarms == [alarms[0]] + alarms[1..];
    }
  }

  /** The elements before the first `x` stay in place and the rest shift down by one. */
  lemma {:induction false} RemoveFirstSplices(alarms: seq<Alarm>, x: Alarm, i: int)
    requires 0 <= i < |alarms| && alarms[i] == x && x !in alarms[..i]
    ensures RemoveFirst(alarms, x) == alarms[..i] + alarms[i + 1..]
  {
    if i > 0 {
      assert alarms[0] in alarms[..i];
      assert alarms[1..][..i - 1] == alarms[..i][1..];
      RemoveFirstSplices(alarms[1..], x, i - 1);
      assert alarms[..i] == [alarms[0]] + alarms[1..][..i - 1];
    }
  }

  /**
   * The switch of `alarm`'s card: the first element equal to `alarm` is
   * replaced by `alarm` with the new `isEnabled`; nothing is emitted when the
   * list does not hold `alarm`.
   */
  method OnToggle(alarms: seq<Alarm>, alarm: Alarm, enabled: bool) returns (emitted: Option<seq<Alarm>>)
    ensures emitted.None? <==> alarm !in alarms
    ensures emitted.Some? ==>
      var updated := emitted.value;
      |updated| == |alarms|
      && exists i :: 0 <= i < |alarms| && alarms[i] == alarm && alarm !in alarms[..i]
                    && updated == alarms[i := alarm.(isEnabled := enabled)]
  {
    var index := IndexOf(alarms, alarm);
    if index != -1 {
      var updated := alarms;
      updated := updated[index := alarm.(isEnabled := enabled)];
      emitted := Some(updated);
    } else {
      emitted := None;
    }
  }

  /** The delete button of `alarm`'s card: the list without its first `alarm`, emitted in every case. */
  method OnDelete(alarms: seq<Alarm>, alarm: Alarm) returns (updated: seq<Alarm>)
    ensures updated == RemoveFirst(alarms, alarm)
  {
    var index := IndexOf(alarms, alarm);
    if index == -1 {
      updated := alarms;
    } else {
      RemoveFirstSplices(alarms, alarm, index);
      updated := alarms[..index] + alarms[index + 1..];
    }
  }

  /** The add dialog's state, remembered by the page across openings. */
  class AlarmsPage {
    var showDialog: bool
    var useOnce: bool

    constructor()
      ensures !showDialog && useOnce
    {
      showDialog, useOnce := false, true;
    }

    /** The floating add button opens the dialog. */
    method OpenDialog()
      modifies this
      ensures showDialog && useOnce == old(useOnce)
    {
      showDialog := true;
    }

    /** The dialog's checkbox shows and sets `useOnce` directly. */
    method OnCheckedChange(checked: bool)
      modifies this
      ensures useOnce == checked && showDialog == old(showDialog)
    {
      useOnce := checked;
    }

    /** Cancel, or a tap outside the dialog. */
    method Cancel()
      modifies this
      ensures !showDialog && useOnce == old(useOnce)
    {
      showDialog := false;
    }

    /**
     * The Add button: the list with a new enabled 1 × 1 alarm at `(0, 0)` for
     * the picked time and the current `useOnce` appended; the dialog closes and
     * `useOnce` is kept for the next opening.
     */
    method Confirm(alarms: seq<Alarm>, newId: string, hour: int, minute: int) returns (updated: seq<Alarm>)
      modifies this
      ensures updated == alarms + [NewAlarm(newId, hour, minute, old(useOnce))]
      ensures !showDialog && useOnce == old(useOnce)
    {
      updated := alarms + [NewAlarm(newId, hour, minute, useOnce)];
      showDialog := false;
    }
  }
}
