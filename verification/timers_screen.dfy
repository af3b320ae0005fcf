/**
 * The timers page (`Timers/TimersScreen.kt`): adding a timer from the
 * keypad dialog, the countdown each card runs, the card buttons (reset,
 * play/pause, +1:00, close), and the two ways a finished timer is dismissed:
 * the page-wide DISMISS button and the shake-it-off dialog.
 */
module TimersScreen {
  import opened Wrappers
  import opened Grid
  import opened Placement
  import opened TimerData
  import GridItems

  /** What the page asks its owner to do with a timer. */
  datatype TimerEffect = UpdateTimer(timer: Timer) | DeleteTimer(timer: Timer)

  // ------------------------------------------------------------- dismissing

  /** A finished timer nobody has dismissed yet. */
  predicate NeedsDismiss(t: Timer) {
    t.isFinished && !t.isDismissed
  }

  /**
   * Dismissing one timer: a one-shot timer is deleted; a reusable one is
   * rewound to its full time, stopped, no longer finished, and marked
   * dismissed, keeping its id, cell, size and settings.
   */
  function DismissEffect(t: Timer): (e: TimerEffect)
    ensures e.DeleteTimer? <==> t.useOnce
    ensures e.DeleteTimer? ==> e.timer == t
    ensures e.UpdateTimer? ==>
      e.timer.remainingSeconds == t.initialSeconds && !e.timer.isRunning && !e.timer.isFinished && e.timer.isDismissed
      && e.timer.(remainingSeconds := t.remainingSeconds, isRunning := t.isRunning,
                  isFinished := t.isFinished, isDismissed := t.isDismissed) == t
  {
    if t.useOnce then DeleteTimer(t)
    else UpdateTimer(t.(remainingSeconds := t.initialSeconds, isRunning := false, isFinished := false, isDismissed := true))
  }

  /** A rewound reusable timer no longer needs dismissing, and is ready to start again at full time. */
  lemma DismissedNeedsNothing(t: Timer)
    requires !t.useOnce
    ensures !NeedsDismiss(DismissEffect(t).timer)
    ensures DismissEffect(t).timer.remainingSeconds == t.initialSeconds
  {
  }

  /** The timers the DISMISS button acts on, in list order. */
  function Pending(timers: seq<Timer>): (r: seq<Timer>)
    ensures |r| <= |timers|
    ensures forall t :: t in r <==> t in timers && NeedsDismiss(t)
  {
    if |timers| == 0 then []
    else if NeedsDismiss(timers[0]) then [timers[0]] + Pending(timers[1..])
    else Pending(timers[1..])
  }

  /** The DISMISS button is shown while some timer needs dismissing. */
  function ShowGlobalDismiss(timers: seq<Timer>): (show: bool)
    ensures show <==> exists i :: 0 <= i < |timers| && NeedsDismiss(timers[i])
  {
    if |timers| == 0 then false else NeedsDismiss(timers[0]) || ShowGlobalDismiss(timers[1..])
  }

  /** DISMISS: the dismissal of every pending timer, in list order. */
  function DismissAll(timers: seq<Timer>): (effects: seq<TimerEffect>)
    ensures |effects| == |Pending(timers)|
    ensures forall i :: 0 <= i < |effects| ==> effects[i] == DismissEffect(Pending(timers)[i])
  {
    var pending := Pending(timers);
    seq(|pending|, i requires 0 <= i < |pending| => DismissEffect(pending[i]))
  }

  /** The button is shown exactly when pressing it would do something. */
  lemma {:induction false} ShowGlobalDismissIffWork(timers: seq<Timer>)
    ensures ShowGlobalDismiss(timers) <==> DismissAll(timers) != []
  {
    if ShowGlobalDismiss(timers) {
      var i :| 0 <= i < |timers| && NeedsDismiss(timers[i]);
      assert timers[i] in Pending(timers);
    }
    if DismissAll(timers) != [] {
      var t := Pending(timers)[0];
      assert t in timers && NeedsDismiss(t);
      var i :| 0 <= i < |timers| && timers[i] == t;
    }
  }

  /** Every timer that needs dismissing is touched by DISMISS, and no other. */
  lemma DismissAllTouchesPending(timers: seq<Timer>, t: Timer)
    ensures t in timers && NeedsDismiss(t) ==> DismissEffect(t) in DismissAll(timers)
    ensures forall e :: e in DismissAll(timers) ==>
      exists j :: 0 <= j < |timers| && NeedsDismiss(timers[j]) && e == DismissEffect(timers[j])
  {
    var pending := Pending(timers);
    var effects := DismissAll(timers);
    if t in timers && NeedsDismiss(t) {
      var k :| 0 <= k < |pending| && pending[k] == t;
      assert effects[k] == DismissEffect(t);
    }
    forall e | e in effects
      ensures exists j :: 0 <= j < |timers| && NeedsDismiss(timers[j]) && e == DismissEffect(timers[j])
    {
      var i :| 0 <= i < |effects| && effects[i] == e;
      assert pending[i] in timers;
      var j :| 0 <= j < |timers| && timers[j] == pending[i];
      assert e == DismissEffect(timers[j]);
    }
  }

  /** A card reports a finished timer: the dialog opens for it unless it was already dismissed. */
  function OnTimerFinished(dialog: Option<Timer>, finished: Timer): (r: Option<Timer>)
    ensures !finished.isDismissed ==> r == Some(finished)
    ensures finished.isDismissed ==> r == dialog
  {
    if !finished.isDismissed then Some(finished) else dialog
  }

  /**
   * A reusable timer keeps `isDismissed` after its first dismissal, and the
   * countdown hands the finish callback the timer it captured when started:
   * when the restarted timer runs out again, the dialog stays as it was, while
   * the finished timer it reports does bring back the DISMISS button.
   */
  lemma RestartedAfterDismissal(t: Timer, dialog: Option<Timer>)
    requires !t.useOnce
    ensures
      var restarted := DismissEffect(t).timer.(isRunning := true);
      OnTimerFinished(dialog, restarted) == dialog
      && NeedsDismiss(restarted.(remainingSeconds := 0, isRunning := false, isFinished := true, isDismissed := false))
  {
  }

  /**
   * Shaking the phone or pressing the dialog's button: the timer the dialog
   * shows is dismissed and the dialog closes.
   */
  function DialogDismiss(dialog: Option<Timer>): (r: (Option<TimerEffect>, Option<Timer>))
    ensures dialog.None? ==> r == (None, None)
    ensures dialog.Some? ==> r == (Some(DismissEffect(dialog.value)), None)
  {
    match dialog
    case None => (None, None)
    case Some(t) => (Some(DismissEffect(t)), None)
  }

  // ----------------------------------------------------------------- adding

  /**
   * Start in the add dialog: a positive total creates a running timer of that
   * many seconds in the first free cell; a total of zero or less adds nothing.
   */
  method OnStart(timers: seq<Timer>, config: GridLayoutConfig, newId: string, hours: int, minutes: int, seconds: int)
    returns (added: Option<Timer>)
    ensures added.Some? <==> hours * 3600 + minutes * 60 + seconds > 0
    ensures added.Some? ==>
      var t := added.value;
      t.id == newId && t.initialSeconds == hours * 3600 + minutes * 60 + seconds
      && t.remainingSeconds == t.initialSeconds && t.isRunning && !t.isFinished && t.useOnce && !t.isDismissed
      && t.width == 1 && t.height == 1
      && Chosen(Anchors(GridItems.Footprints(GridItems.TimerItems(timers))), config.columns, config.rows, t.x, t.y)
  {
    var totalSeconds := hours * 3600 + minutes * 60 + seconds;
    if totalSeconds > 0 {
      var newX, newY := FirstFreeCell(Anchors(GridItems.Footprints(GridItems.TimerItems(timers))), config.columns, config.rows);
      added := Some(NewTimer(newId, totalSeconds, totalSeconds).(isRunning := true, x := newX, y := newY));
    } else {
      added := None;
    }
  }


  // ------------------------------------------------------------------- card

  /** How a timer card is coloured. */
  datatype Tone = Alert | Active | Idle

  function CardTone(isFinished: bool, isDismissed: bool, isRunning: bool): (tone: Tone)
    ensures tone == Alert <==> isFinished && !isDismissed
    ensures tone == Active <==> !(isFinished && !isDismissed) && isRunning
  {
    if isFinished && !isDismissed then Alert else if isRunning then Active else Idle
  }

  /**
   * The countdown state a card remembers under its timer's id: the seconds
   * left and the running, finished and dismissed flags. A card whose slot is
   * given a timer with another id remembers a new one.
   */
  class CountdownState {
    var remaining: int
    var running: bool
    var finished: bool
    const dismissed: bool

    constructor(t: Timer)
      ensures remaining == t.remainingSeconds && running == t.isRunning && finished == t.isFinished && dismissed == t.isDismissed
    {
      remaining, running, finished := t.remainingSeconds, t.isRunning, t.isFinished;
      dismissed := t.isDismissed;
    }
  }

  /**
   * One timer card. `timer` is the timer of the latest composition and
   * `state` the countdown state remembered for its id. The countdown effect
   * is keyed on the running flag alone: it works on `effectState` and
   * reports copies of `effectTimer`, the state and timer it captured when it
   * was last started. The page lists its cards without keys, so a card slot
   * can be handed a timer with another id while the effect keeps running on
   * the state it captured.
   */
  class TimerCard {
    var timer: Timer
    var state: CountdownState
    var effectState: CountdownState
    var effectTimer: Timer

    constructor(t: Timer)
      ensures timer == t && effectTimer == t && effectState == state && fresh(state)
      ensures state.remaining == t.remainingSeconds && state.running == t.isRunning
      ensures state.finished == t.isFinished && state.dismissed == t.isDismissed
    {
      timer, effectTimer := t, t;
      state := new CountdownState(t);
      effectState := state;
    }

    /**
     * A later composition with `t`. A new id makes the card remember a new
     * countdown state from `t`; the effect restarts, capturing that state and
     * `t`, only if the running flag it is keyed on differs from before.
     */
    method Recompose(t: Timer)
      modifies this
      ensures timer == t
      ensures t.id == old(timer.id) ==> state == old(state)
      ensures t.id != old(timer.id) ==>
        fresh(state) && state.remaining == t.remainingSeconds && state.running == t.isRunning
        && state.finished == t.isFinished && state.dismissed == t.isDismissed
      ensures t.id != old(timer.id) && t.isRunning != old(state.running) ==>
        effectState == state && effectTimer == t
      ensures !(t.id != old(timer.id) && t.isRunning != old(state.running)) ==>
        effectState == old(effectState) && effectTimer == old(effectTimer)
    {
      if t.id != timer.id {
        var wasRunning := state.running;
        state := new CountdownState(t);
        if t.isRunning != wasRunning {
          effectState, effectTimer := state, t;
        }
      }
      timer := t;
    }

    /**
     * The countdown, over at most `budget` one-second ticks on the captured
     * state: while running with time left, each tick takes one second off
     * and reports it; on reaching zero it stops, turns finished, reports the
     * finished timer and hands the captured timer to the finish callback.
     */
    method RunCountdown(budget: nat) returns (updates: seq<Timer>, finishedWith: Option<Timer>)
      modifies effectState
      ensures state != effectState ==> unchanged(state)
      ensures !(old(effectState.running) && old(effectState.remaining) > 0) ==>
        updates == [] && finishedWith == None && unchanged(effectState)
      ensures old(effectState.running) && old(effectState.remaining) > 0 ==>
        effectState.remaining == (if old(effectState.remaining) <= budget then 0 else old(effectState.remaining) - budget)
      ensures finishedWith.Some? <==> old(effectState.running) && 0 < old(effectState.remaining) <= budget
      ensures finishedWith.Some? ==>
        finishedWith.value == effectTimer && effectState.finished && !effectState.running
        && |updates| == old(effectState.remaining) + 1
        && updates[|updates| - 1] == effectTimer.(remainingSeconds := 0, isRunning := false, isFinished := true, isDismissed := false)
      ensures old(effectState.running) && old(effectState.remaining) > budget ==>
        |updates| == budget && effectState.running && effectState.finished == old(effectState.finished)
      ensures forall i :: 0 <= i < |updates| && updates[i].isRunning ==>
        updates[i] == effectTimer.(remainingSeconds := old(effectState.remaining) - i - 1, isRunning := true)
    {
      var s := effectState;
      updates := [];
      finishedWith := None;
      if s.running && s.remaining > 0 {
        var ticks := 0;
        while s.remaining > 0 && s.running && ticks < budget
          invariant 0 <= ticks <= budget && s.running
          invariant s.remaining == old(s.remaining) - ticks && s.remaining >= 0
          invariant |updates| == ticks
          invariant forall i :: 0 <= i < ticks ==>
            updates[i] == effectTimer.(remainingSeconds := old(s.remaining) - i - 1, isRunning := true)
          invariant s.finished == old(s.finished)
        {
          s.remaining := s.remaining - 1;
          updates := updates + [effectTimer.(remainingSeconds := s.remaining, isRunning := true)];
          ticks := ticks + 1;
        }
        if s.remaining == 0 {
          s.finished := true;
          s.running := false;
          updates := updates + [effectTimer.(remainingSeconds := 0, isRunning := false, isFinished := true, isDismissed := false)];
          finishedWith := Some(effectTimer);
        }
      }
    }

    /**
     * Reset: back to the full time, stopped and not finished. Stopping a
     * running card changes the effect's key, which restarts it on this state.
     */
    method Reset() returns (emitted: Timer)
      modifies this, state
      ensures state == old(state) && timer == old(timer) && effectTimer == old(effectTimer)
      ensures state.remaining == timer.initialSeconds && !state.running && !state.finished
      ensures emitted == timer.(remainingSeconds := timer.initialSeconds, isRunning := false, isFinished := false)
      ensures old(state.running) ==> effectState == state
      ensures !old(state.running) ==> effectState == old(effectState)
    {
      if state.running {
        effectState := state;
      }
      state.remaining := timer.initialSeconds;
      state.running := false;
      state.finished := false;
      emitted := timer.(remainingSeconds := state.remaining, isRunning := false, isFinished := false);
    }

    /**
     * Play / pause: flips running and reports it with the remaining time.
     * The flip restarts the effect on this state; starting captures the
     * reported timer.
     */
    method Toggle() returns (emitted: Timer)
      modifies this, state
      ensures state == old(state) && timer == old(timer) && effectState == state
      ensures state.running == !old(state.running)
      ensures state.remaining == old(state.remaining) && state.finished == old(state.finished)
      ensures emitted == timer.(isRunning := state.running, remainingSeconds := state.remaining)
      ensures state.running ==> effectTimer == emitted
      ensures !state.running ==> effectTimer == old(effectTimer)
    {
      state.running := !state.running;
      effectState := state;
      emitted := timer.(isRunning := state.running, remainingSeconds := state.remaining);
      if state.running {
        effectTimer := emitted;
      }
    }

    /** `+1:00`, shown only while running: one more minute. */
    method AddMinute() returns (emitted: Timer)
      requires state.running
      modifies state
      ensures state.remaining == old(state.remaining) + 60
      ensures state.running && state.finished == old(state.finished)
      ensures emitted == timer.(remainingSeconds := state.remaining)
    {
      state.remaining := state.remaining + 60;
      emitted := timer.(remainingSeconds := state.remaining);
    }

    /** The close button, shown only while running, deletes the timer. */
    method Close() returns (effect: TimerEffect)
      requires state.running
      ensures effect == DeleteTimer(timer)
    {
      effect := DeleteTimer(timer);
    }

    /** The card's colour follows the shown state, not the state the countdown effect holds. */
    function Tone(): (tone: Tone)
      reads this, state
      ensures tone == Alert <==> state.finished && !state.dismissed
      ensures tone == Active <==> !(state.finished && !state.dismissed) && state.running
    {
      CardTone(state.finished, state.dismissed, state.running)
    }
  }

  /**
   * Two running timers `a` and `b` share a card slot when `a` is deleted
   * from before `b`: the slot gets `b`, but its countdown effect keeps
   * running on `a`'s state and finally reports `a` as finished, while `b`'s
   * own countdown state never moves and the card keeps the running colour.
   */
  method SlotReuseFinishesDeletedTimer(a: Timer, b: Timer) returns (finishedWith: Option<Timer>, shownRemaining: int, shownRunning: bool, shownTone: Tone)
    requires a.id != b.id && a.isRunning && b.isRunning && a.remainingSeconds > 0
    ensures finishedWith == Some(a)
    ensures shownRemaining == b.remainingSeconds && shownRunning
    ensures !b.isFinished ==> shownTone == Active
  {
    var card := new TimerCard(a);
    card.Recompose(b);
    var updates;
    updates, finishedWith := card.RunCountdown(a.remainingSeconds);
    shownRemaining, shownRunning, shownTone := card.state.remaining, card.state.running, card.Tone();
  }
}
