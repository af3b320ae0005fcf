/**
 * The dialog that creates an alarm on the alarms page (`Alarms/AddAlarmDialog.kt`):
 * a time picker, a "Use Once" checkbox over the `useOnce` flag, and an Add
 * button that puts the new alarm on the first free grid cell.
 */
module AddAlarmDialog {
  import opened Grid
  import opened Placement
  import opened AlarmData
  import GridItems

  class AlarmDialog {
    /** Whether the alarm being created fires only once. */
    var useOnce: bool
    /** Whether the picker shows a dial (or text fields). */
    var usingDial: bool

    /** A freshly opened dialog: use-once, with the dial. */
    constructor()
      ensures useOnce && usingDial
    {
      useOnce, usingDial := true, true;
    }

    /** The checkbox shows the opposite of `useOnce`. */
    function Checked(): (checked: bool)
      reads this
      ensures checked <==> !useOnce
    {
      !useOnce
    }

    /** The user (un)ticks the checkbox: the box then shows what was ticked. */
    method OnCheckedChange(checked: bool)
      modifies this
      ensures Checked() == checked
      ensures useOnce == !checked && usingDial == old(usingDial)
    {
      useOnce := !checked;
    }

    /** The keyboard/dial button. */
    method ToggleInputMode()
      modifies this
      ensures usingDial == !old(usingDial) && useOnce == old(useOnce)
    {
      usingDial := !usingDial;
    }

    /**
     * The Add button: the picked time, the current `useOnce`, and the first
     * grid cell (row by row) that no existing alarm has as its top-left cell,
     * or `(0, 0)` when there is none.
     */
    method Confirm(alarms: seq<Alarm>, config: GridLayoutConfig, newId: string, hour: int, minute: int)
      returns (added: Alarm)
      requires 0 <= hour < 24 && 0 <= minute < 60
      ensures added == NewAlarm(newId, TimeOf(hour, minute), useOnce, added.x, added.y)
      ensures Chosen(Anchors(GridItems.Footprints(GridItems.AlarmItems(alarms))), config.columns, config.rows, added.x, added.y)
      ensures (0 <= added.x < config.columns && 0 <= added.y < config.rows) || (added.x == 0 && added.y == 0)
    {
      var newX, newY := FirstFreeCell(Anchors(GridItems.Footprints(GridItems.AlarmItems(alarms))), config.columns, config.rows);
      added := NewAlarm(newId, TimeOf(hour, minute), useOnce, newX, newY);
    }
  }

  /**
   * The new alarm is never put on another alarm's top-left cell unless every
   * cell of the grid already holds one.
   */
  lemma {:induction false} NewAlarmAvoidsAnchors(alarms: seq<Alarm>, config: GridLayoutConfig, x: int, y: int, i: int)
    requires Chosen(Anchors(GridItems.Footprints(GridItems.AlarmItems(alarms))), config.columns, config.rows, x, y)
    requires 0 <= i < |alarms| && alarms[i].x == x && alarms[i].y == y
    ensures AllAnchored(Anchors(GridItems.Footprints(GridItems.AlarmItems(alarms))), config.columns, config.rows)
  {
    var anchors := Anchors(GridItems.Footprints(GridItems.AlarmItems(alarms)));
    assert anchors[i] == (x, y);
    assert IsAnchor(anchors, x, y);
  }
}
