/**
 * `GridItem`: the cards a custom page can hold, alarms and timers, seen
 * through the interface the grid needs (id, cell, size, moved copy).
 */
module GridItems {
  import opened Grid
  import AlarmData
  import TimerData

  datatype GridItem = AlarmItem(alarm: AlarmData.Alarm) | TimerItem(timer: TimerData.Timer)

  function Id(item: GridItem): string {
    match item
    case AlarmItem(a) => a.id
    case TimerItem(t) => t.id
  }

  /** The item's cells on the grid. */
  function Footprint(item: GridItem): (p: Placed)
    ensures p.id == Id(item)
    ensures item.AlarmItem? ==> p == AlarmData.Footprint(item.alarm)
    ensures item.TimerItem? ==> p == TimerData.Footprint(item.timer)
  {
    match item
    case AlarmItem(a) => AlarmData.Footprint(a)
    case TimerItem(t) => TimerData.Footprint(t)
  }

  /**
   * `copyWithNewGridValues`: the same kind of item with the same id and
   * content, at the given cell and size.
   */
  function CopyWithNewGridValues(item: GridItem, x: int, y: int, width: int, height: int): (r: GridItem)
    ensures r.AlarmItem? <==> item.AlarmItem?
    ensures Footprint(r) == Placed(Id(item), Rect(x, y, width, height))
    ensures item.AlarmItem? ==> r.alarm.(x := item.alarm.x, y := item.alarm.y, width := item.alarm.width, height := item.alarm.height) == item.alarm
    ensures item.TimerItem? ==> r.timer.(x := item.timer.x, y := item.timer.y, width := item.timer.width, height := item.timer.height) == item.timer
  {
    match item
    case AlarmItem(a) => AlarmItem(AlarmData.CopyWithNewGridValues(a, x, y, width, height))
    case TimerItem(t) => TimerItem(TimerData.CopyWithNewGridValues(t, x, y, width, height))
  }

  /** Copying an item to its own cell and size gives the item back. */
  lemma {:induction false} CopyToOwnFootprint(item: GridItem)
    ensures CopyWithNewGridValues(item, Footprint(item).bounds.x, Footprint(item).bounds.y,
                                  Footprint(item).bounds.width, Footprint(item).bounds.height) == item
  {
  }

  /** A list of alarms passed where a list of grid items is expected. */
  function AlarmItems(alarms: seq<AlarmData.Alarm>): (items: seq<GridItem>)
    ensures |items| == |alarms|
    ensures forall i :: 0 <= i < |alarms| ==> items[i] == AlarmItem(alarms[i])
  {
    seq(|alarms|, i requires 0 <= i < |alarms| => AlarmItem(alarms[i]))
  }

  /** A list of timers passed where a list of grid items is expected. */
  function TimerItems(timers: seq<TimerData.Timer>): (items: seq<GridItem>)
    ensures |items| == |timers|
    ensures forall i :: 0 <= i < |timers| ==> items[i] == TimerItem(timers[i])
  {
    seq(|timers|, i requires 0 <= i < |timers| => TimerItem(timers[i]))
  }

  /** The footprints of a list of items, in order. */
  function Footprints(items: seq<GridItem>): (ps: seq<Placed>)
    ensures |ps| == |items|
    ensures forall i :: 0 <= i < |items| ==> ps[i] == Footprint(items[i])
  {
    if |items| == 0 then [] else [Footprint(items[0])] + Footprints(items[1..])
  }
}
