/**
 * A custom page (`CustomScreen.kt`): alarms and timers share one grid, but
 * each card is collision-checked only against cards of its own kind, and a
 * finished timer opens the shake-it-off dialog.
 */
module CustomScreen {
  import opened Wrappers
  import opened Grid
  import opened GridItems
  import AlarmData
  import TimerData
  import TimersScreen

  /** `filterIsInstance<Alarm>()`: the page's alarms, in order, each as often as it occurs. */
  function AlarmsOf(items: seq<GridItem>): (alarms: seq<AlarmData.Alarm>)
    ensures forall a :: a in alarms <==> AlarmItem(a) in items
    ensures forall a :: multiset(alarms)[a] == multiset(items)[AlarmItem(a)]
    ensures |alarms| <= |items|
  {
    if |items| == 0 then []
    else
      assert items == [items[0]] + items[1..];
      if items[0].AlarmItem? then [items[0].alarm] + AlarmsOf(items[1..])
      else AlarmsOf(items[1..])
  }

  /** `filterIsInstance<Timer>()`: the page's timers, in order, each as often as it occurs. */
  function TimersOf(items: seq<GridItem>): (timers: seq<TimerData.Timer>)
    ensures forall t :: t in timers <==> TimerItem(t) in items
    ensures forall t :: multiset(timers)[t] == multiset(items)[TimerItem(t)]
    ensures |timers| <= |items|
  {
    if |items| == 0 then []
    else
      assert items == [items[0]] + items[1..];
      if items[0].TimerItem? then [items[0].timer] + TimersOf(items[1..])
      else TimersOf(items[1..])
  }

  /** The filter keeps order: filtering two runs of cards one after the other is filtering each. */
  lemma {:induction false} AlarmsOfConcat(a: seq<GridItem>, b: seq<GridItem>)
    ensures AlarmsOf(a + b) == AlarmsOf(a) + AlarmsOf(b)
    decreases |a|
  {
    if |a| > 0 {
      assert (a + b)[1..] == a[1..] + b;
      AlarmsOfConcat(a[1..], b);
    } else {
      assert a + b == b;
    }
  }

  /** The filter keeps order: filtering two runs of cards one after the other is filtering each. */
  lemma {:induction false} TimersOfConcat(a: seq<GridItem>, b: seq<GridItem>)
    ensures TimersOf(a + b) == TimersOf(a) + TimersOf(b)
    decreases |a|
  {
    if |a| > 0 {
      assert (a + b)[1..] == a[1..] + b;
      TimersOfConcat(a[1..], b);
    } else {
      assert a + b == b;
    }
  }

  /** A page of alarms only filters to exactly those alarms, and to no timers. */
  lemma {:induction false} AlarmsOfAlarmItems(alarms: seq<AlarmData.Alarm>)
    ensures AlarmsOf(AlarmItems(alarms)) == alarms
    ensures TimersOf(AlarmItems(alarms)) == []
    decreases |alarms|
  {
    if |alarms| > 0 {
      assert AlarmItems(alarms)[1..] == AlarmItems(alarms[1..]);
      AlarmsOfAlarmItems(alarms[1..]);
      assert alarms == [alarms[0]] + alarms[1..];
    }
  }

  /** A page of timers only filters to exactly those timers, and to no alarms. */
  lemma {:induction false} TimersOfTimerItems(timers: seq<TimerData.Timer>)
    ensures TimersOf(TimerItems(timers)) == timers
    ensures AlarmsOf(TimerItems(timers)) == []
    decreases |timers|
  {
    if |timers| > 0 {
      assert TimerItems(timers)[1..] == TimerItems(timers[1..]);
      TimersOfTimerItems(timers[1..]);
      assert timers == [timers[0]] + timers[1..];
    }
  }

  /** The footprints of the page's alarms are exactly the footprints of its alarm cards. */
  lemma AlarmFootprints(items: seq<GridItem>)
    ensures forall p :: p in Footprints(AlarmItems(AlarmsOf(items))) ==>
      exists other :: other in items && other.AlarmItem? && p == Footprint(other)
    ensures forall other :: other in items && other.AlarmItem? ==> Footprint(other) in Footprints(AlarmItems(AlarmsOf(items)))
  {
    var alarms := AlarmsOf(items);
    var ps := Footprints(AlarmItems(alarms));
    forall p | p in ps
      ensures exists other :: other in items && other.AlarmItem? && p == Footprint(other)
    {
      var k :| 0 <= k < |ps| && ps[k] == p;
      assert AlarmItem(alarms[k]) in items;
    }
    forall other | other in items && other.AlarmItem?
      ensures Footprint(other) in ps
    {
      var k :| 0 <= k < |alarms| && alarms[k] == other.alarm;
      assert ps[k] == Footprint(other);
    }
  }

  /** The footprints of the page's timers are exactly the footprints of its timer cards. */
  lemma TimerFootprints(items: seq<GridItem>)
    ensures forall p :: p in Footprints(TimerItems(TimersOf(items))) ==>
      exists other :: other in items && other.TimerItem? && p == Footprint(other)
    ensures forall other :: other in items && other.TimerItem? ==> Footprint(other) in Footprints(TimerItems(TimersOf(items)))
  {
    var timers := TimersOf(items);
    var ps := Footprints(TimerItems(timers));
    forall p | p in ps
      ensures exists other :: other in items && other.TimerItem? && p == Footprint(other)
    {
      var k :| 0 <= k < |ps| && ps[k] == p;
      assert TimerItem(timers[k]) in items;
    }
    forall other | other in items && other.TimerItem?
      ensures Footprint(other) in ps
    {
      var k :| 0 <= k < |timers| && timers[k] == other.timer;
      assert ps[k] == Footprint(other);
    }
  }

  /**
   * The cards `item`'s card is checked against: the footprints of every
   * alarm for an alarm, of every timer for a timer, and of nothing else.
   */
  function CollisionList(items: seq<GridItem>, item: GridItem): (others: seq<Placed>)
    ensures forall p :: p in others ==> exists other :: other in items && other.AlarmItem? == item.AlarmItem? && p == Footprint(other)
    ensures forall other :: other in items && other.AlarmItem? == item.AlarmItem? ==> Footprint(other) in others
  {
    if item.AlarmItem? then
      AlarmFootprints(items);
      Footprints(AlarmItems(AlarmsOf(items)))
    else
      TimerFootprints(items);
      Footprints(TimerItems(TimersOf(items)))
  }

  /**
   * An alarm and a timer may share cells: on a page with an alarm and a timer
   * both on cell `(0, 0)`, neither card's collision test sees the other.
   */
  lemma AlarmAndTimerMayOverlap()
    ensures
      var alarm := AlarmItem(AlarmData.NewAlarm("a", AlarmData.TimeOf(7, 30), true, 0, 0));
      var timer := TimerItem(TimerData.NewTimer("t", 60, 60));
      var items := [alarm, timer];
      Overlap(Footprint(alarm).bounds, Footprint(timer).bounds)
      && !Collides(CollisionList(items, alarm), "a", Footprint(alarm).bounds)
      && !Collides(CollisionList(items, timer), "t", Footprint(timer).bounds)
  {
    var alarm := AlarmItem(AlarmData.NewAlarm("a", AlarmData.TimeOf(7, 30), true, 0, 0));
    var timer := TimerItem(TimerData.NewTimer("t", 60, 60));
    var items := [alarm, timer];
    assert AlarmsOf(items) == [alarm.alarm] by {
      assert items[1..] == [timer];
      assert AlarmsOf([timer]) == [];
    }
    assert TimersOf(items) == [timer.timer] by {
      assert items[1..] == [timer];
    }
    assert CollisionList(items, alarm) == [Footprint(alarm)];
    assert CollisionList(items, timer) == [Footprint(timer)];
  }

  /** What the page asks its owner to do with a card. */
  datatype ItemEffect = UpdateItem(item: GridItem) | DeleteItem(item: GridItem)

  /** A timer's dismissal as a change to the page's cards. */
  function ItemDismissal(t: TimerData.Timer): (e: ItemEffect)
    ensures e.DeleteItem? <==> t.useOnce
    ensures e.item.TimerItem? && Id(e.item) == t.id
    ensures e.DeleteItem? ==> e.item == TimerItem(t)
    ensures e.UpdateItem? ==> e.item == TimerItem(TimersScreen.DismissEffect(t).timer)
  {
    match TimersScreen.DismissEffect(t)
    case DeleteTimer(d) => DeleteItem(TimerItem(d))
    case UpdateTimer(u) => UpdateItem(TimerItem(u))
  }

  /** The page's shake-it-off dialog: the timer it is shown for, if any. */
  class CustomPage {
    var dialog: Option<TimerData.Timer>

    constructor()
      ensures dialog.None?
    {
      dialog := None;
    }

    /** A timer card reports that its countdown finished. */
    method OnTimerFinished(finished: TimerData.Timer)
      modifies this
      ensures dialog == TimersScreen.OnTimerFinished(old(dialog), finished)
    {
      dialog := TimersScreen.OnTimerFinished(dialog, finished);
    }

    /**
     * Shaking the phone or the dialog's dismiss button (the two paths do the
     * same): the shown timer is deleted if it is used once and rewound and
     * marked dismissed otherwise; the dialog closes.
     */
    method Dismiss() returns (effect: Option<ItemEffect>)
      modifies this
      ensures dialog.None?
      ensures old(dialog).None? ==> effect.None?
      ensures old(dialog).Some? ==> effect == Some(ItemDismissal(old(dialog).value))
    {
      if dialog.Some? {
        effect := Some(ItemDismissal(dialog.value));
      } else {
        effect := None;
      }
      dialog := None;
    }
  }
}
