# PerfectClock in Dafny

A verified model of the rules inside PerfectClock, an Android clock app written
in Kotlin with Jetpack Compose. The app has alarm, timer and stopwatch pages,
user-made custom pages that mix alarm and timer cards, and a settings page. The
model covers the logic those pages run:

- **Grid layout.** Cards sit on a `columns × rows` grid (`Grid`). A drag moves or
  resizes a card one rounded step at a time. Each step is clamped into the grid
  with `coerceIn` and rejected when another card would overlap. A drop snaps the
  card to the cell under the dragged preview, or sends it back on a collision.
  The shared card is `Card.ItemCard`, with the global drag controller in
  `DragOverlay`. The older timer card with its own drag handles is in
  `LegacyTimersScreen`.
- **Placement.** A new alarm or timer goes to the first cell, in row-major
  order, that is not some existing card's top-left cell (`Placement`).
- **Timers.** The timer record and its `H:MM:SS` text are in `TimerData` and
  `TimerText`. The six-digit keypad of the add-timer dialog is in `Keypad`. The
  timer page is in `TimersScreen`: the one-second countdown of a card, its
  buttons, the finish dialog, and the global DISMISS button.
- **Alarms.** The alarm records are in `AlarmData` and `LegacyAlarmData`. The add
  dialog is in `AddAlarmDialog`. The list-based alarm page is in
  `AlarmsScreen`. The scheduling of the next ring is in `AlarmScheduler`.
- **Custom pages.** `CustomScreen` covers which cards a card collides with and
  the finish dialog. `Serialization` covers the tagged JSON form of a card.
- **Stopwatches.** The lap stopwatch is in `Stopwatch`; the simple second
  stopwatch is in `Stopwatches`.
- **Shake detection** is in `ShakeDetector`. A shake dismisses a finished timer.
- **Settings.** The page list is in `SettingsScreen`; the grid size fields are in
  `SettingsDialog`.

`KotlinText` and `Wrappers` hold the pieces of Kotlin's library that the rules
use:

- truncating `/` and `%`;
- `toString`, `"%d"` and `"%02d"`;
- `toIntOrNull`, `padStart`, `takeLast`, `isBlank` and `split`;
- `Option` and `Result`.

Where the app keeps state that event handlers update in place, the model is a
class. This covers:

- the state held in `remember` of a card, a dialog or a page;
- the drag controller;
- the shake listener's fields.

Each handler is a method that says what it emits and what the new state is.
Pure computations are functions. Each has lemmas relating it to an inverse, to
an invariant, or to an independent definition.

The repository declares `Alarm`, `Timer`, `AlarmsScreen` and `TimersScreen`
twice in one package:

- the grid versions: `Alarms/Alarm.kt`, `Timers/Timer.kt`,
  `Timers/TimersScreen.kt`, `Alarms/AlarmsScreen.kt`;
- the older versions: `Alarm.kt`, `TimerStorage.kt`, `TimersScreen.kt`,
  `AlarmsScreen.kt`.

Each version gets its own module. Both `Alarm` classes implement `GridItem`
(`Alarm.kt:18`, `Alarms/Alarm.kt:17`), and since they share a package the
source as written does not say which one a use of `Alarm` means. The grid-based
code (`ItemCard`, custom pages, serialization) is modelled with the grid
versions, because the code around it works with those: the custom page calls
the `AlarmItem` that takes the alarm list, grid settings and container offset
(`CustomScreen.kt:67-79`), which is the one in `Alarms/AlarmsScreen.kt:147-159`,
and the grid alarm code builds and schedules alarms by their `time`
(`Alarms/AddAlarmDialog.kt:106-112`, `Alarms/AndroidAlarmScheduler.kt:31`),
a field only the grid `Alarm` has. The older `Alarm` is modelled on its own, by
`LegacyAlarmData`.

Some code appears in more than one file and is modelled once:

- The keypad and `parseTime` of `TimerSetupDialog` (`TimersScreen.kt:558-690`)
  are the same text as `Timers/AddTimerDialog.kt`, so `Keypad` models both.
- The older timer page has the same DISMISS button (`TimersScreen.kt:132-160`),
  the same add-timer handler (`TimersScreen.kt:166-203`), the same card tone
  (`TimersScreen.kt:346-350`) and the same countdown, reset, play/pause, +1:00
  and close buttons (`TimersScreen.kt:240-260`, `410-504`) as the grid timer
  page. They are covered by `TimersScreen.DismissAll`, `TimersScreen.OnStart`,
  `TimersScreen.CardTone` and `TimersScreen.TimerCard`. The old countdown never
  calls a finish callback: the older card ignores `RunCountdown`'s
  `finishedWith`.
- The finish rule and dismissal of `CustomScreen.kt` reuse the timer page's
  definitions.
- The grid-edge toggle of the settings dialog is `Grid.ToggleEdges`.

The first-free-cell scan appears three times:

- `Timers/TimersScreen.kt:185-199`;
- `TimersScreen.kt:172-186`;
- `Alarms/AddAlarmDialog.kt:90-104`.

All three are `Placement.FirstFreeCell`.

## Model

| member | source | states |
|---|---|---|
| KotlinText.TRem | app/src/main/java/com/griffith/perfectclock/Timers/Timer.kt:24-25 | Kotlin's `%` with a positive divisor: `a == b * (a / b) + r`, the remainder in `0 .. b-1` for `a >= 0` and in `-(b-1) .. 0` for `a < 0` (sign of the dividend) |
| KotlinText.ToIntOrNull | app/src/main/java/com/griffith/perfectclock/SettingsDialogContent.kt:58 | `toIntOrNull`: empty text is `null`; any value returned fits a 32-bit `Int`; unsigned text never gives a negative value |
| KotlinText.ToIntOrNullFormatD | app/src/main/java/com/griffith/perfectclock/SettingsDialogContent.kt:39-40 | every `Int` rendered with `toString()` reads back to itself |
| KotlinText.SplitJoin | app/src/main/java/com/griffith/perfectclock/Timers/Timer.kt:26-35 | splitting `a:b` where `a` has no colon peels off exactly `a` (used to read back the timer text) |
| Grid.ToggleEdges | app/src/main/java/com/griffith/perfectclock/SettingsScreen.kt:136 | the edges checkbox flips `showEdges` and keeps columns and rows |
| Grid.ToggleEdgesTwice | app/src/main/java/com/griffith/perfectclock/SettingsDialogContent.kt:88-90 | toggling the edges twice gives back the same settings |
| Grid.OverlapIsSharedCell | app/src/main/java/com/griffith/perfectclock/components/Card.kt:203-207 | the four-comparison overlap test holds exactly when the two cards share a grid cell |
| Grid.Collides | app/src/main/java/com/griffith/perfectclock/components/Card.kt:203-207 | a proposed rectangle collides iff some card with a different id overlaps it |
| Grid.NeverCollidesWithSelf | app/src/main/java/com/griffith/perfectclock/components/Card.kt:204 | a card's own entry (same id) never blocks it, even where it overlaps |
| Grid.CollisionFreeUpdateKeepsDisjoint | app/src/main/java/com/griffith/perfectclock/components/Card.kt:209-212 | replacing one card by a rectangle no other card overlaps keeps a layout without overlaps free of overlaps |
| Grid.CoerceIn | app/src/main/java/com/griffith/perfectclock/components/Card.kt:196-201 | `coerceIn(lo, hi)`: the result is in range, equals the input when it is in range, and is the in-range value nearest the input |
| Grid.ClampMove | app/src/main/java/com/griffith/perfectclock/components/Card.kt:196-201 | a moved card keeps its size and lies inside the grid, at the clamped column and row |
| Grid.ClampResize | app/src/main/java/com/griffith/perfectclock/components/Card.kt:171-176 | a resized card keeps its top-left cell, is at least 1 × 1 and does not pass the grid's right or bottom edge |
| Grid.TryMove | app/src/main/java/com/griffith/perfectclock/components/Card.kt:193-212 | one move step: the clamped cell if nothing else collides there, otherwise the card stays put; the result is the old cell or a collision-free cell inside the grid |
| Grid.TryResize | app/src/main/java/com/griffith/perfectclock/components/Card.kt:168-187 | one resize step: the clamped size if nothing else collides, otherwise unchanged |
| Grid.SnapDrop | app/src/main/java/com/griffith/perfectclock/components/Card.kt:132-152 | a drop keeps the card's size and lands on the clamped cell when free, otherwise reverts to the cell the item had when the gesture began |
| Grid.MoveKeepsDisjoint | app/src/main/java/com/griffith/perfectclock/components/Card.kt:188-212 | a move step applied to a layout without overlaps leaves it without overlaps |
| Grid.ResizeKeepsDisjoint | app/src/main/java/com/griffith/perfectclock/components/Card.kt:167-187 | a resize step applied to a layout without overlaps leaves it without overlaps |
| Placement.Anchors | app/src/main/java/com/griffith/perfectclock/Timers/TimersScreen.kt:191 | the anchor list holds each existing card's top-left cell, one per card, in order |
| Placement.FirstFreeCell | app/src/main/java/com/griffith/perfectclock/Timers/TimersScreen.kt:185-199 | the nested row/column scan returns the first cell in row-major order that is no card's top-left cell, or `(0, 0)` when there is none |
| Placement.ChosenUnique | app/src/main/java/com/griffith/perfectclock/Timers/TimersScreen.kt:189-199 | the chosen cell is determined by the anchors and the grid size |
| Placement.PlacementIgnoresSpans | app/src/main/java/com/griffith/perfectclock/Timers/TimersScreen.kt:191 | only top-left cells are checked: next to a 2-wide card at `(0, 0)` the new card goes to `(1, 0)`, inside the existing card |
| Placement.FullGridStacksOnOrigin | app/src/main/java/com/griffith/perfectclock/Timers/TimersScreen.kt:185-199 | on a grid with a cell, the new card lands on an existing top-left corner iff every cell is one, and then on `(0, 0)` |
| TimerText.Fields | app/src/main/java/com/griffith/perfectclock/Timers/Timer.kt:23-25 | for a non-negative count, hours, minutes in 0..59 and seconds in 0..59 recombine to the count; for a negative count every field is `<= 0` |
| TimerText.ReadRender | app/src/main/java/com/griffith/perfectclock/Timers/Timer.kt:22-36 | the text `H:MM:SS` / `M:SS` / `S` of a non-negative count reads back to that count |
| TimerText.RenderLayout | app/src/main/java/com/griffith/perfectclock/Timers/Timer.kt:26-35 | from an hour up the text is three colon-separated fields, the unpadded hours then two-digit minutes and seconds below 60; from a minute up it is two fields, the unpadded minutes then two-digit seconds; below a minute it is the bare number |
| TimerText.RenderInjective | app/src/main/java/com/griffith/perfectclock/Timers/Timer.kt:26-35 | two different non-negative counts never show the same text |
| TimerText.RenderUnderMinute | app/src/main/java/com/griffith/perfectclock/Timers/Timer.kt:33-34 | below a minute the text is the bare number of seconds, unpadded |
| TimerText.RenderNegative | app/src/main/java/com/griffith/perfectclock/Timers/Timer.kt:23-35 | a negative count always falls to the seconds branch and shows the signed remainder modulo 60 (`-61` shows `-1`) |
| TimerData.NewTimer | app/src/main/java/com/griffith/perfectclock/Timers/Timer.kt:6-18 | a new timer has the given id and times, is stopped, unfinished, one-shot, undismissed, 1 × 1 at `(0, 0)` |
| TimerData.CopyWithNewGridValues | app/src/main/java/com/griffith/perfectclock/Timers/Timer.kt:19-21 | the copy sits at the given cell and size, and nothing but the grid fields changes |
| TimerData.CopyWithOwnGridValues | app/src/main/java/com/griffith/perfectclock/Timers/Timer.kt:19-21 | copying to a new cell and back to the old one gives back the timer |
| TimerData.GetTimeString | app/src/main/java/com/griffith/perfectclock/Timers/Timer.kt:22-36 | the text of a timer with a non-negative remaining count has the `H:MM:SS` / `M:SS` / `S` layout for it and reads back to that count |
| LegacyTimerData.NewTimer | app/src/main/java/com/griffith/perfectclock/TimerStorage.kt:7-15 | the stored timer record's defaults: stopped, unfinished, one-shot, undismissed |
| LegacyTimerData.GetTimeString | app/src/main/java/com/griffith/perfectclock/TimerStorage.kt:16-30 | the same text as the grid timer: the `H:MM:SS` / `M:SS` / `S` layout, and it reads back to a non-negative remaining count |
| AlarmData.TimeOf | app/src/main/java/com/griffith/perfectclock/Alarms/AddAlarmDialog.kt:109 | `LocalTime.of(hour, minute)` has that hour and minute and zero seconds and nanoseconds |
| AlarmData.NewAlarm | app/src/main/java/com/griffith/perfectclock/Alarms/Alarm.kt:7-17 | a new alarm has the given id, time, use-once flag and cell, is enabled, has no message and is 1 × 1 |
| AlarmData.CopyWithNewGridValues | app/src/main/java/com/griffith/perfectclock/Alarms/Alarm.kt:23-25 | the copy sits at the given cell and size, and nothing but the grid fields changes |
| AlarmData.GetTimeString | app/src/main/java/com/griffith/perfectclock/Alarms/Alarm.kt:19-21 | `HH:mm`: five characters, a colon in the middle, two-digit fields that read back to the hour and minute |
| AlarmData.SameTextSameMinute | app/src/main/java/com/griffith/perfectclock/Alarms/Alarm.kt:19-21 | two alarms show the same text iff they ring at the same hour and minute |
| LegacyAlarmData.NewAlarm | app/src/main/java/com/griffith/perfectclock/Alarm.kt:8-18 | a new alarm record has the given id, hour, minute and use-once flag, is enabled, 1 × 1 at `(0, 0)` |
| LegacyAlarmData.CopyWithNewGridValues | app/src/main/java/com/griffith/perfectclock/Alarm.kt:24-26 | the copy sits at the given cell and size, and nothing but the grid fields changes |
| LegacyAlarmData.GetTimeString | app/src/main/java/com/griffith/perfectclock/Alarm.kt:20-22 | `%02d:%02d`: for hour and minute in 0..99 the text is `HH:MM` and reads back to both |
| LegacyAlarmData.WideHourText | app/src/main/java/com/griffith/perfectclock/Alarm.kt:21 | nothing bounds the hour: hour 100 shows as `100:05`, six characters |
| GridItems.Footprint | app/src/main/java/com/griffith/perfectclock/GridItem.kt:4-12 | an item's footprint carries its id and its cell and size, whichever kind it is |
| GridItems.Footprints | app/src/main/java/com/griffith/perfectclock/GridItem.kt:4-12 | the footprints of a list of items are the items' own footprints, in order |
| GridItems.CopyWithNewGridValues | app/src/main/java/com/griffith/perfectclock/GridItem.kt:11 | `copyWithNewGridValues` keeps the item's kind and id and every non-grid field and puts it at the given cell and size |
| GridItems.CopyToOwnFootprint | app/src/main/java/com/griffith/perfectclock/GridItem.kt:11 | copying an item to its own cell and size gives back the item |
| DragOverlay.DragController.constructor | app/src/main/java/com/griffith/perfectclock/DragOverlay.kt:35 | no drag is in progress at first |
| DragOverlay.DragController.StartDrag | app/src/main/java/com/griffith/perfectclock/DragOverlay.kt:38-54 | the drag info becomes the given item, position, pixel size and preview |
| DragOverlay.DragController.UpdateDrag | app/src/main/java/com/griffith/perfectclock/DragOverlay.kt:56-58 | an active drag moves to the new position keeping everything else; without a drag nothing happens |
| DragOverlay.DragController.EndDrag | app/src/main/java/com/griffith/perfectclock/DragOverlay.kt:60-62 | the drag info is cleared |
| Card.RoundToInt | app/src/main/java/com/griffith/perfectclock/components/Card.kt:196-197 | `roundToInt`: the result is within half a unit of the value (halves rounded up) |
| Card.RoundToIntUnique | app/src/main/java/com/griffith/perfectclock/components/Card.kt:196-197 | exactly one integer satisfies that bound, so rounding is determined |
| Card.SnapIndex | app/src/main/java/com/griffith/perfectclock/components/Card.kt:124-134 | the drop cell index is the rounded position, in cells, of the preview's top-left corner relative to the grid |
| Card.ItemCard.constructor | app/src/main/java/com/griffith/perfectclock/components/Card.kt:61-66 | the card starts at the item's cell and size, not resizing, with the handler holding the item, the cards of the page and the grid settings |
| Card.ItemCard.Recompose | app/src/main/java/com/griffith/perfectclock/components/Card.kt:68-79 | a changed item resets the card's cell and size; a changed id restarts the gesture handler with the new item, cards and settings, otherwise the handler keeps what it captured |
| Card.ItemCard.Positioned | app/src/main/java/com/griffith/perfectclock/components/Card.kt:76-78 | the window offset becomes the reported position, nothing else changes |
| Card.ItemCard.DragStart | app/src/main/java/com/griffith/perfectclock/components/Card.kt:81-111 | a start in the bottom-right handle square is a resize; any other start opens a drag at the window position with the captured item |
| Card.ItemCard.Drag | app/src/main/java/com/griffith/perfectclock/components/Card.kt:164-213 | a resize step is `TryResize` of the rounded new size; a move step updates the drag position and is `TryMove` of the rounded new cell, against the captured cards and settings |
| Card.ItemCard.DragEnd | app/src/main/java/com/griffith/perfectclock/components/Card.kt:112-163 | after a move the drag ends and the card is `SnapDrop`ped (reverting to the captured item's cell on a collision); the reported item is the captured item at the card's cell and size |
| Keypad.ApplyKey | app/src/main/java/com/griffith/perfectclock/Timers/AddTimerDialog.kt:111-116 | backspace drops the last digit; `00` appends only to non-empty input shorter than 6; a digit appends only below 6 characters and never a leading `0` |
| Keypad.ApplyKeyWellFormed | app/src/main/java/com/griffith/perfectclock/Timers/AddTimerDialog.kt:111-116 | keys keep the input all digits with no leading zero |
| Keypad.Padded | app/src/main/java/com/griffith/perfectclock/Timers/AddTimerDialog.kt:44 | `padStart(6, '0').takeLast(6)` is six characters: zeros then the input, or the input's last six |
| Keypad.ParseTime | app/src/main/java/com/griffith/perfectclock/Timers/AddTimerDialog.kt:43-49 | hours, minutes and seconds are each below 100 and spell the padded number `HHMMSS` |
| Keypad.ReadPair | app/src/main/java/com/griffith/perfectclock/Timers/AddTimerDialog.kt:45-47 | a two-digit slice always parses, so the `?: 0` fallback is never taken |
| Keypad.ParseTimeReadsTypedDigits | app/src/main/java/com/griffith/perfectclock/Timers/AddTimerDialog.kt:43-49 | up to six typed digits are read as the number they spell; more digits keep only the last six |
| Keypad.NoLeadingZeroPositive | app/src/main/java/com/griffith/perfectclock/Timers/AddTimerDialog.kt:115 | input without a leading zero has a positive value |
| Keypad.StartPressed | app/src/main/java/com/griffith/perfectclock/Timers/AddTimerDialog.kt:154-157 | Start reports the parsed fields exactly when their sum is positive |
| Keypad.StartWorksUpToSixDigits | app/src/main/java/com/griffith/perfectclock/Timers/AddTimerDialog.kt:152-157 | with the button enabled and at most six digits typed, Start always reports a time |
| Keypad.SevenDigitsStartDoesNothing | app/src/main/java/com/griffith/perfectclock/Timers/AddTimerDialog.kt:114 | `1`, `00`, `00`, `00` types seven digits; the last six are zeros, so the enabled Start button does nothing |
| Keypad.EveryDigitHighlighted | app/src/main/java/com/griffith/perfectclock/Timers/AddTimerDialog.kt:66-71 | the highlight test `i >= 6 - length` on the always-six-character display is true for every position |
| Keypad.TimerInput.constructor | app/src/main/java/com/griffith/perfectclock/Timers/AddTimerDialog.kt:41 | the input starts empty |
| Keypad.TimerInput.Press | app/src/main/java/com/griffith/perfectclock/Timers/AddTimerDialog.kt:111-116 | a key press replaces the input by `ApplyKey` of it |
| Keypad.TimerInput.Start | app/src/main/java/com/griffith/perfectclock/Timers/AddTimerDialog.kt:152-157 | Start reports `StartPressed` of the input, whose fields sum to a positive number |
| TimersScreen.DismissEffect | app/src/main/java/com/griffith/perfectclock/Timers/TimersScreen.kt:152-164 | a one-shot timer is deleted; a reusable one is rewound to its initial time, stopped, unfinished and marked dismissed, keeping everything else |
| TimersScreen.DismissedNeedsNothing | app/src/main/java/com/griffith/perfectclock/Timers/TimersScreen.kt:156-163 | a dismissed reusable timer no longer needs dismissing and is back at its initial time |
| TimersScreen.Pending | app/src/main/java/com/griffith/perfectclock/Timers/TimersScreen.kt:151 | the timers to process are exactly the finished, undismissed ones |
| TimersScreen.ShowGlobalDismiss | app/src/main/java/com/griffith/perfectclock/Timers/TimersScreen.kt:147 | the DISMISS button shows iff some timer is finished and undismissed |
| TimersScreen.DismissAll | app/src/main/java/com/griffith/perfectclock/Timers/TimersScreen.kt:150-165 | DISMISS emits one dismissal per pending timer, in order |
| TimersScreen.ShowGlobalDismissIffWork | app/src/main/java/com/griffith/perfectclock/Timers/TimersScreen.kt:147-165 | the button is shown iff pressing it does something |
| TimersScreen.DismissAllTouchesPending | app/src/main/java/com/griffith/perfectclock/Timers/TimersScreen.kt:150-165 | every pending timer is dismissed, and every emitted effect dismisses some pending timer |
| TimersScreen.OnTimerFinished | app/src/main/java/com/griffith/perfectclock/Timers/TimersScreen.kt:126-130 | the shake dialog opens for a finished timer not marked dismissed and is otherwise left as it was |
| TimersScreen.RestartedAfterDismissal | app/src/main/java/com/griffith/perfectclock/Timers/TimersScreen.kt:272-298 | a reusable timer restarted after a dismissal keeps `isDismissed`, so when it finishes again the dialog does not open, yet the DISMISS button comes back |
| TimersScreen.DialogDismiss | app/src/main/java/com/griffith/perfectclock/Timers/TimersScreen.kt:219-251 | shaking or dismissing the dialog dismisses its timer and closes it |
| TimersScreen.OnStart | app/src/main/java/com/griffith/perfectclock/Timers/TimersScreen.kt:181-213 | a positive total adds a running one-shot timer of that many seconds in the first free cell; a non-positive total adds nothing |
| TimersScreen.CardTone | app/src/main/java/com/griffith/perfectclock/Timers/TimersScreen.kt:310-314 | the card is red iff finished and undismissed, highlighted iff otherwise running |
| TimersScreen.TimerCard.constructor | app/src/main/java/com/griffith/perfectclock/Timers/TimersScreen.kt:272-275 | the card's countdown state starts from the timer, and the countdown effect holds that state and that timer |
| TimersScreen.TimerCard.Recompose | app/src/main/java/com/griffith/perfectclock/Timers/TimersScreen.kt:272-277 | the slot shows the new timer; the same id keeps the countdown state; a new id gets fresh state from the new timer; the countdown effect restarts on the new state and timer only when the running flag changes, otherwise it keeps the old state and old timer |
| TimersScreen.TimerCard.RunCountdown | app/src/main/java/com/griffith/perfectclock/Timers/TimersScreen.kt:277-298 | on the state the effect holds, each tick takes a second off and reports the captured timer with that count; on zero that state stops and finishes, the finished timer is reported and the captured timer is called back; a stopped state does nothing; the shown state is untouched when it is not the one the effect holds |
| TimersScreen.TimerCard.Reset | app/src/main/java/com/griffith/perfectclock/Timers/TimersScreen.kt:391-402 | reset rewinds to the initial time, stops and unfinishes the card and reports that; stopping a running card restarts the effect on the shown state |
| TimersScreen.TimerCard.Toggle | app/src/main/java/com/griffith/perfectclock/Timers/TimersScreen.kt:414-423 | play/pause flips running and reports the timer with the new flag and the current count; the effect restarts on the shown state, capturing the reported timer when it starts |
| TimersScreen.TimerCard.AddMinute | app/src/main/java/com/griffith/perfectclock/Timers/TimersScreen.kt:366-369 | +1:00 adds sixty seconds and reports the new count |
| TimersScreen.SlotReuseFinishesDeletedTimer | app/src/main/java/com/griffith/perfectclock/Timers/TimersScreen.kt:102-298 | when a running card's slot is taken by another running timer with a different id, the old countdown goes on and finishes the old timer while the card shows the new timer's count, still running and, unless the new timer is finished, with the running colour |
| TimersScreen.TimerCard.Tone | app/src/main/java/com/griffith/perfectclock/Timers/TimersScreen.kt:310-314 | the card is red iff its shown state is finished and undismissed, highlighted iff otherwise running |
| TimersScreen.TimerCard.Close | app/src/main/java/com/griffith/perfectclock/Timers/TimersScreen.kt:354-356 | close deletes the timer |
| LegacyTimersScreen.LegacyTimerCard.constructor | app/src/main/java/com/griffith/perfectclock/TimersScreen.kt:220-231 | the card starts at the timer's cell and size, not dragging, with its countdown from the timer and its gesture handlers holding the first timer, timer list and grid settings |
| LegacyTimersScreen.LegacyTimerCard.Recompose | app/src/main/java/com/griffith/perfectclock/TimersScreen.kt:90-262 | a changed timer resets the card's cell and size; the same id keeps the countdown state, a new id gets fresh state from the new timer, and the countdown effect restarts only when the running flag changes; the gesture handlers are kept |
| LegacyTimersScreen.LegacyTimerCard.BodyDragStart | app/src/main/java/com/griffith/perfectclock/TimersScreen.kt:270-279 | a body drag marks the card dragging, so outlined, and is a resize iff it starts in the 24 dp corner |
| LegacyTimersScreen.LegacyTimerCard.Outlined | app/src/main/java/com/griffith/perfectclock/TimersScreen.kt:331-336 | with grid edges shown every card is outlined; otherwise exactly the card being dragged by its body |
| LegacyTimersScreen.LegacyTimerCard.BodyDrag | app/src/main/java/com/griffith/perfectclock/TimersScreen.kt:291-329 | a body drag step is a resize step or a move step, with the cell size in pixels |
| LegacyTimersScreen.LegacyTimerCard.HandleMove | app/src/main/java/com/griffith/perfectclock/TimersScreen.kt:384-399 | a drag-handle step is `TryMove` with the cell size divided in dp units, against the first-composition timers |
| LegacyTimersScreen.LegacyTimerCard.HandleResize | app/src/main/java/com/griffith/perfectclock/TimersScreen.kt:526-542 | a resize-handle step is `TryResize` with the cell size in dp units |
| LegacyTimersScreen.LegacyTimerCard.DragEnd | app/src/main/java/com/griffith/perfectclock/TimersScreen.kt:280-290 | ending any drag reports the first-composition timer at the card's cell and size; a body drag also clears the dragging flag, so the card is outlined only when edges are shown |
| AddAlarmDialog.AlarmDialog.constructor | app/src/main/java/com/griffith/perfectclock/Alarms/AddAlarmDialog.kt:31-32 | the dialog opens one-shot and on the dial |
| AddAlarmDialog.AlarmDialog.Checked | app/src/main/java/com/griffith/perfectclock/Alarms/AddAlarmDialog.kt:62 | the repeat checkbox is ticked iff the alarm is not one-shot |
| AddAlarmDialog.AlarmDialog.OnCheckedChange | app/src/main/java/com/griffith/perfectclock/Alarms/AddAlarmDialog.kt:62 | ticking the box shows it ticked: the use-once flag is its negation |
| AddAlarmDialog.AlarmDialog.ToggleInputMode | app/src/main/java/com/griffith/perfectclock/Alarms/AddAlarmDialog.kt:76 | the keyboard/dial button flips the input mode only |
| AddAlarmDialog.AlarmDialog.Confirm | app/src/main/java/com/griffith/perfectclock/Alarms/AddAlarmDialog.kt:89-115 | the new alarm rings at the picked time with the dialog's use-once flag, in the first free cell of the existing alarms |
| AddAlarmDialog.NewAlarmAvoidsAnchors | app/src/main/java/com/griffith/perfectclock/Alarms/AddAlarmDialog.kt:94-104 | a new alarm lands on an existing alarm's top-left cell only when every cell is taken |
| AlarmsScreen.IndexOf | app/src/main/java/com/griffith/perfectclock/AlarmsScreen.kt:92 | `indexOf`: -1 iff absent, otherwise the first position holding the alarm |
| AlarmsScreen.RemoveFirst | app/src/main/java/com/griffith/perfectclock/AlarmsScreen.kt:100 | `remove` shortens the list by one when the alarm is present and changes nothing otherwise |
| AlarmsScreen.RemoveFirstMultiset | app/src/main/java/com/griffith/perfectclock/AlarmsScreen.kt:100 | removal takes out exactly one copy of the alarm and keeps all other alarms |
| AlarmsScreen.RemoveFirstSplices | app/src/main/java/com/griffith/perfectclock/AlarmsScreen.kt:100 | removal cuts out the first occurrence and keeps the order of the rest |
| AlarmsScreen.OnToggle | app/src/main/java/com/griffith/perfectclock/AlarmsScreen.kt:90-98 | a present alarm's first occurrence is replaced by the alarm with the new enabled flag and the list is emitted; an absent one emits nothing |
| AlarmsScreen.OnDelete | app/src/main/java/com/griffith/perfectclock/AlarmsScreen.kt:99-103 | delete emits the list without the first occurrence of the alarm |
| AlarmsScreen.AlarmsPage.constructor | app/src/main/java/com/griffith/perfectclock/AlarmsScreen.kt:64-66 | the dialog is closed and the use-once box starts ticked |
| AlarmsScreen.AlarmsPage.OpenDialog | app/src/main/java/com/griffith/perfectclock/AlarmsScreen.kt:111 | the add button opens the dialog |
| AlarmsScreen.AlarmsPage.OnCheckedChange | app/src/main/java/com/griffith/perfectclock/AlarmsScreen.kt:139 | the use-once box sets the flag |
| AlarmsScreen.AlarmsPage.Cancel | app/src/main/java/com/griffith/perfectclock/AlarmsScreen.kt:162 | cancel closes the dialog |
| AlarmsScreen.AlarmsPage.Confirm | app/src/main/java/com/griffith/perfectclock/AlarmsScreen.kt:166-176 | add appends an alarm with the picked time and the flag to the end of the list and closes the dialog |
| CustomScreen.AlarmsOf | app/src/main/java/com/griffith/perfectclock/CustomScreen.kt:66 | `filterIsInstance`: an alarm is kept iff it is on the page, as many times as it is on the page |
| CustomScreen.AlarmsOfConcat | app/src/main/java/com/griffith/perfectclock/CustomScreen.kt:66 | the filter keeps order: filtering two runs of cards one after the other is filtering each and joining the results |
| CustomScreen.AlarmsOfAlarmItems | app/src/main/java/com/griffith/perfectclock/CustomScreen.kt:66 | a page of alarms only filters back to exactly those alarms, in order, and to no timers |
| CustomScreen.TimersOf | app/src/main/java/com/griffith/perfectclock/CustomScreen.kt:82 | `filterIsInstance`: a timer is kept iff it is on the page, as many times as it is on the page |
| CustomScreen.TimersOfConcat | app/src/main/java/com/griffith/perfectclock/CustomScreen.kt:82 | the filter keeps order: filtering two runs of cards one after the other is filtering each and joining the results |
| CustomScreen.TimersOfTimerItems | app/src/main/java/com/griffith/perfectclock/CustomScreen.kt:82 | a page of timers only filters back to exactly those timers, in order, and to no alarms |
| CustomScreen.AlarmFootprints | app/src/main/java/com/griffith/perfectclock/CustomScreen.kt:66-69 | the footprints passed for an alarm card are those of every alarm card on the page and of nothing else |
| CustomScreen.TimerFootprints | app/src/main/java/com/griffith/perfectclock/CustomScreen.kt:82-85 | the footprints passed for a timer card are those of every timer card on the page and of nothing else |
| CustomScreen.CollisionList | app/src/main/java/com/griffith/perfectclock/CustomScreen.kt:64-85 | a card is checked against every card of its own kind on the page, and against no card of the other kind |
| CustomScreen.AlarmAndTimerMayOverlap | app/src/main/java/com/griffith/perfectclock/CustomScreen.kt:64-85 | an alarm and a timer on the same cell do not block each other |
| CustomScreen.ItemDismissal | app/src/main/java/com/griffith/perfectclock/CustomScreen.kt:111-125 | a dismissal deletes a one-shot timer card and otherwise updates it to the rewound, dismissed timer |
| CustomScreen.CustomPage.constructor | app/src/main/java/com/griffith/perfectclock/CustomScreen.kt:33 | the shake dialog starts closed |
| CustomScreen.CustomPage.OnTimerFinished | app/src/main/java/com/griffith/perfectclock/CustomScreen.kt:95-99 | the same rule as the timers page: the dialog opens for a timer not marked dismissed |
| CustomScreen.CustomPage.Dismiss | app/src/main/java/com/griffith/perfectclock/CustomScreen.kt:109-141 | shaking or dismissing emits the dialog timer's dismissal and closes the dialog |
| Stopwatch.Fields | app/src/main/java/com/griffith/perfectclock/StopwatchScreen.kt:227-230 | minutes, seconds and hundredths are in range and recombine to the time modulo an hour, to the hundredth |
| Stopwatch.FieldsRecombine | app/src/main/java/com/griffith/perfectclock/StopwatchScreen.kt:227-230 | the three truncating divisions recombine to the time modulo an hour, minus the last millisecond digit |
| Stopwatch.FormatTime | app/src/main/java/com/griffith/perfectclock/StopwatchScreen.kt:226-232 | the display is eight characters `MM:SS:CC` |
| Stopwatch.ReadFormatTime | app/src/main/java/com/griffith/perfectclock/StopwatchScreen.kt:226-232 | the display reads back to the time modulo one hour, to the hundredth |
| Stopwatch.FormatTimeDropsHours | app/src/main/java/com/griffith/perfectclock/StopwatchScreen.kt:228 | whole hours are dropped: an hour later the display is the same |
| Stopwatch.StopwatchPage.constructor | app/src/main/java/com/griffith/perfectclock/StopwatchScreen.kt:26-36 | stopped, zero, no laps, current lap 1 |
| Stopwatch.StopwatchPage.Tick | app/src/main/java/com/griffith/perfectclock/StopwatchScreen.kt:42-59 | for any clock reading the elapsed time is the clock minus the start, which in a consistent page equals the time measured while running; the current lap tracks the clock; consistency is kept while the clock does not go back |
| Stopwatch.StopwatchPage.StartStop | app/src/main/java/com/griffith/perfectclock/StopwatchScreen.kt:102-122 | for any clock reading, stopping records the clock; a first start sets start and last lap to the clock; resuming shifts both by the pause, so the measured time excludes pauses; consistency is kept while the clock does not go back and reads above zero |
| Stopwatch.StopwatchPage.RecordLap | app/src/main/java/com/griffith/perfectclock/StopwatchScreen.kt:137-149 | for any clock reading, a lap appends the current lap with its duration and finish and starts the next lap at the clock; in a consistent page the recorded lap is numbered by its position; consistency is kept while the clock does not go back |
| Stopwatch.StopwatchPage.Reset | app/src/main/java/com/griffith/perfectclock/StopwatchScreen.kt:82-88 | from any state, reset stops, zeroes and clears the laps, leaving the last-lap time as it was, and the page is consistent again |
| Stopwatch.LapEnabledWhenMeasuring | app/src/main/java/com/griffith/perfectclock/StopwatchScreen.kt:135 | the Lap button is shown iff the stopwatch runs or shows a positive time |
| Stopwatches.FormatTime | app/src/main/java/com/griffith/perfectclock/StopwatchesScreen.kt:79-84 | for a non-negative time the display is eight characters `MM:SS:CC` |
| Stopwatches.FormatTimeAgrees | app/src/main/java/com/griffith/perfectclock/StopwatchesScreen.kt:79-84 | the second page's `formatTime` (dividing by `1000 * 60` at once) shows the same text as the first page's for every value |
| Stopwatches.StopwatchCard.constructor | app/src/main/java/com/griffith/perfectclock/StopwatchesScreen.kt:18-21 | stopped and zero |
| Stopwatches.StopwatchCard.Tick | app/src/main/java/com/griffith/perfectclock/StopwatchesScreen.kt:23-30 | for any clock reading the shown time is the banked offset plus the running segment; while the clock does not go back it is at least the banked offset and the card stays consistent |
| Stopwatches.StopwatchCard.Toggle | app/src/main/java/com/griffith/perfectclock/StopwatchesScreen.kt:47-54 | for any clock reading, stopping banks the running segment and starting begins a new segment at the clock; consistency is kept while the clock does not go back |
| Stopwatches.StopwatchCard.ResetShown | app/src/main/java/com/griffith/perfectclock/StopwatchesScreen.kt:61 | in a consistent card the Reset button is shown iff the time is not zero |
| Stopwatches.ClockSetBackHidesReset | app/src/main/java/com/griffith/perfectclock/StopwatchesScreen.kt:23-61 | a clock set back by 600 ms while the card runs leaves it showing and banking -600 ms, with the Reset button hidden |
| Stopwatches.StopwatchCard.Reset | app/src/main/java/com/griffith/perfectclock/StopwatchesScreen.kt:61-69 | the Reset button, shown only for a positive time, stops and zeroes the card and hides itself |
| ShakeDetector.Next | app/src/main/java/com/griffith/perfectclock/ShakeDetector.kt:48-63 | a peak counts when it is the first or comes 500..3000 ms (exclusive) after the last; the third counted peak fires and resets; a peak more than 3000 ms after the last resets; anything else changes nothing; the count stays below 3 |
| ShakeDetector.ThreeSpacedPeaksShake | app/src/main/java/com/griffith/perfectclock/ShakeDetector.kt:50-57 | three peaks spaced 500..3000 ms apart fire once, on the third |
| ShakeDetector.QuietGaps | app/src/main/java/com/griffith/perfectclock/ShakeDetector.kt:50-62 | a peak within 500 ms, or exactly 3000 ms after the last counted one, is ignored |
| ShakeDetector.OnePeakNeverShakes | app/src/main/java/com/griffith/perfectclock/ShakeDetector.kt:50-53 | a single peak on a fresh detector counts but does not fire |
| ShakeDetector.ShakeListener.constructor | app/src/main/java/com/griffith/perfectclock/ShakeDetector.kt:24-25 | timestamp and count start at zero |
| ShakeDetector.ShakeListener.OnSensorChanged | app/src/main/java/com/griffith/perfectclock/ShakeDetector.kt:48-63 | the listener's fields and the callback follow `Next` |
| Serialization.AsString | app/src/main/java/com/griffith/perfectclock/CustomGridItemSerialization.kt:43 | `asString` gives a string's text and fails on null and objects |
| Serialization.Tag | app/src/main/java/com/griffith/perfectclock/CustomGridItemSerialization.kt:21-25 | the tag is `Alarm` iff the item is an alarm and `Timer` iff it is a timer |
| Serialization.Serialize | app/src/main/java/com/griffith/perfectclock/CustomGridItemSerialization.kt:14-31 | null input or context gives JSON null; a known item gives an object holding exactly its tag and payload; another class is refused |
| Serialization.Deserialize | app/src/main/java/com/griffith/perfectclock/CustomGridItemSerialization.kt:33-53 | a non-object is refused; a success needs `type` and `item` members and the tag that matches the decoded kind |
| Serialization.RoundTrip | app/src/main/java/com/griffith/perfectclock/CustomGridItemSerialization.kt:14-53 | writing an item and reading it back gives the same item whenever the payload codec round-trips |
| Serialization.ItemCheckedBeforeTag | app/src/main/java/com/griffith/perfectclock/CustomGridItemSerialization.kt:43-52 | a missing `item` is reported before an unknown tag |
| Serialization.NumericTagIsText | app/src/main/java/com/griffith/perfectclock/CustomGridItemSerialization.kt:43 | a numeric tag is read as its text and reported as an unknown type |
| SettingsScreen.RemovePage | app/src/main/java/com/griffith/perfectclock/SettingsScreen.kt:165-169 | removing a custom page splices it out and keeps every built-in page |
| SettingsScreen.SetPageEnabled | app/src/main/java/com/griffith/perfectclock/SettingsScreen.kt:173-179 | the checkbox sets one page's enabled flag and changes nothing else |
| SettingsScreen.AddPageDialog.constructor | app/src/main/java/com/griffith/perfectclock/SettingsScreen.kt:52-53 | the dialog is closed with an empty name |
| SettingsScreen.AddPageDialog.Open | app/src/main/java/com/griffith/perfectclock/SettingsScreen.kt:184 | the button opens the dialog, keeping the typed name |
| SettingsScreen.AddPageDialog.OnValueChange | app/src/main/java/com/griffith/perfectclock/SettingsScreen.kt:197 | typing sets the name |
| SettingsScreen.AddPageDialog.Confirm | app/src/main/java/com/griffith/perfectclock/SettingsScreen.kt:202-210 | a blank name does nothing and keeps the dialog open; otherwise an enabled custom page with that name is appended, the name cleared and the dialog closed |
| SettingsScreen.BlankNames | app/src/main/java/com/griffith/perfectclock/SettingsScreen.kt:203 | every all-space name, the empty one included, is blank; a name with a non-whitespace character anywhere is not |
| SettingsDialog.OnColumnsChange | app/src/main/java/com/griffith/perfectclock/SettingsDialogContent.kt:56-59 | a number sets the columns, anything else keeps them; rows and edges are kept |
| SettingsDialog.OnRowsChange | app/src/main/java/com/griffith/perfectclock/SettingsDialogContent.kt:69-72 | a number sets the rows, anything else keeps them; columns and edges are kept |
| SettingsDialog.TypedNumberIsTaken | app/src/main/java/com/griffith/perfectclock/SettingsDialogContent.kt:56-72 | any `Int` typed as text becomes the column or row count |
| SettingsDialog.ShownTextKeepsConfig | app/src/main/java/com/griffith/perfectclock/SettingsDialogContent.kt:39-40 | the fields' initial text leaves the settings unchanged |
| SettingsDialog.NoRangeCheck | app/src/main/java/com/griffith/perfectclock/SettingsDialogContent.kt:58 | zero and negative counts are accepted; empty text keeps the setting |
| AlarmScheduler.NanoOfDay | app/src/main/java/com/griffith/perfectclock/Alarms/AndroidAlarmScheduler.kt:31 | a time of day is within one day |
| AlarmScheduler.IsBeforeIsEarlier | app/src/main/java/com/griffith/perfectclock/Alarms/AndroidAlarmScheduler.kt:34 | `isBefore` holds iff the first date-time is the earlier one |
| AlarmScheduler.NextTrigger | app/src/main/java/com/griffith/perfectclock/Alarms/AndroidAlarmScheduler.kt:30-38 | the trigger is today's alarm time, or tomorrow's iff today's is before now |
| AlarmScheduler.TriggerWithinADay | app/src/main/java/com/griffith/perfectclock/Alarms/AndroidAlarmScheduler.kt:34-38 | with one reading of the date, the trigger is at or after now and less than a day later |
| AlarmScheduler.MidnightBetweenReadings | app/src/main/java/com/griffith/perfectclock/Alarms/AndroidAlarmScheduler.kt:30-31 | if the date is read after midnight while now was read before, an alarm at now's time is set a full day late |
| AlarmScheduler.TriggerMillis | app/src/main/java/com/griffith/perfectclock/Alarms/AndroidAlarmScheduler.kt:40 | the trigger is whole seconds in milliseconds, the epoch second of the trigger |

## Left out

- Persistence is not modelled: the Gson / `SharedPreferences` storage classes (`AlarmStorage`, `TimerStorage`, `GridConfigStorage`, `PageConfigStorage`, `CustomPageStorage`) are I/O. The payload encoding inside `serialize` / `deserialize` (`context.serialize`, `context.deserialize`) is a function parameter.
- Platform glue is not modelled: `AlarmManager`, intents and pending intents, the alarm popup activity and receiver, sensor registration (`start` / `stop`), navigation, haptics and drawing.
- Clocks are parameters. Each `System.currentTimeMillis()` or `LocalDateTime.now()` reading is a `now` argument. The coroutine loops (`delay`) are steps: one `Tick` per iteration of the stopwatches' loops, and a tick budget for the timer countdown.
- Floating point is not modelled. Pixel and dp geometry is real arithmetic, and `roundToInt` is exact rounding of a real. The accelerometer low-pass filter (`ShakeDetector.kt:39-46`) is reduced to a boolean "above the 2.7 g threshold" input.
- Integer overflow is not modelled: `Int` and `Long` are unbounded integers. Only `toIntOrNull` keeps its 32-bit range check.
- The time zone is a fixed UTC offset in seconds. Zone rules, gaps and overlaps (`atZone(ZoneId.systemDefault())`) are not modelled. `String.format` is modelled without a locale (ASCII digits).
- `KotlinText.ToIntOrNull`: reads only the ASCII digits `0`-`9`. Kotlin's `toIntOrNull` also accepts the other Unicode decimal digits (`Character.digit`), so for text such as Arabic-Indic digits the model's `SettingsDialog.OnColumnsChange` and `OnRowsChange` keep the old value where the app would take the number.
- `onDraggingChange` and the page-wide "any card is dragging" flag only drive the grid background and highlight, so they are not modelled.
- The lap list rendering, the `LapRow` colours and the annotated keypad display (apart from its highlight test) are not modelled.
- `CustomGridItemWrapper` is not modelled: it is declared but never used.
- `TimersScreen.TimerCard.RunCountdown`: the countdown reports copies of the timer captured when its effect last started, not the composition's timer at each tick, as the app's coroutine does. A timer updated by the page while the card runs is seen only at the next start. The coroutine's suspension and cancellation are reduced to which state and timer the running effect holds.
- `Stopwatches.StopwatchCard.Reset`: `StopwatchesScreen.kt:68` assigns `L`, which is not valid Kotlin. The model takes the evident intent, `0L`.
- `Stopwatch.StopwatchPage.Tick`: any clock reading is accepted, but the page's consistency (non-negative elapsed and banked time, a running segment that did not start in the future) is promised only when the reading is not earlier than the last one. `System.currentTimeMillis()` goes back when the system time is set back.
- `Stopwatch.StopwatchPage.StartStop`: the same; it also needs a reading above zero, because the page uses a start time of `0` to mean "never started" and a start at epoch 0, or a resume that shifts the start to 0, leaves laps behind a restart at lap 1.
- `Stopwatch.StopwatchPage.RecordLap`: the same, and the recorded lap is numbered by its position only in a consistent page.
- `Stopwatches.StopwatchCard.Tick`: any clock reading is accepted; the card's consistency (non-negative banked and shown time) and a shown time of at least the banked time are promised only while the clock does not go back. `Stopwatches.ClockSetBackHidesReset` shows what happens otherwise.
- `Stopwatches.StopwatchCard.Toggle`: the same; a stop after the clock went back banks a negative segment.
- `Keypad.TimerInput.Start` and `Stopwatches.StopwatchCard.Reset` require their button to be enabled or shown. Disabled and hidden buttons cannot be pressed.
- `Grid.CoerceIn` requires `lo <= hi`, as Kotlin does: `coerceIn` throws otherwise. The drag methods therefore require a grid at least as large as the card (`CanClampMove` / `CanClampResize`). A grid shrunk below a card's size in settings is not modelled.
- The alarm list's item card (layout and colours) is not modelled beyond its toggle and delete callbacks.
