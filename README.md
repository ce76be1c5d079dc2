# DominionNode timed-capture node, modelled in Dafny

DominionNode is ESP32 firmware for one control point of a "domination"
airsoft game. Two teams, RED and BLUE, each have a push button. A SHORT or
MEDIUM press by a team starts that team's stopwatch and stops the other team's.
A combined MEDIUM or LONG press of both buttons ends the game, and the team
whose stopwatch shows more whole seconds wins; a tie goes to BLUE. A combined
LONG press during the setup window opens a settings menu. Settings are
persisted in NVS flash, and two TM1637 seven-segment
displays show the times.

The project models the core of the firmware:

- `CInt` — C's truncating `/` and `%`. Dafny's own operators are Euclidean.
- `SettingsTypes` (components/settings_types/settings_types.c) — the
  control-point enum and its name tables.
- `Chrono` (components/chrono/chrono.c) — the stopwatch. It is a pure
  transition function per operation, plus the `Stopwatch` class whose methods
  update the three fields in place. The clock `esp_timer_get_time()` becomes a
  `now` parameter in microseconds.
- `AppTypes`, `Dispatcher` — the application state and event enums, and the
  bounded application queue: capacity 10, FIFO, and a message sent to a full
  queue is dropped.
- `Buttons` (components/buttons/buttons.c) — the ISR that sets event-group
  bits, and the button task. A pass of the button task selects the button
  group from a bit snapshot, polls the line(s) every 10 ms until release or
  until the 1000-poll cap, buckets the duration, enqueues the event and clears
  exactly the snapshot bits. GPIO levels are a function from poll index to the
  sampled levels.
- `Storage` (components/storage/storage.c) — the control-point key in the
  "config" namespace, over a `map<string, bv8>` image of NVS. Failures of
  the NVS library calls are parameters.
- `Settings` (components/settings/settings.c) — the settings cursor and the
  value being edited: cycling and modification, load and save with
  early return on the first error, and the short-name tables.
- `Display` (components/display/display.c) — seconds split into MM:SS digits,
  the colon bit, argument and initialisation checks, and the log of TM1637
  commands sent.
- `App` (components/app/app.c) — the boot prologue, the (state, event)
  transition table `Step`, its iteration `Run`, the winner rule, the setup
  timer and the `AppTask` class. `AppTask.HandleEvent` is proved to follow
  `Step`, and `AppTask.ConsumeQueued` to drain the queue as `Run` says.

Where the headers' names or documentation and the code disagree, the model
follows the code:

- The constants PRESS_SHORT_MAX_MS and PRESS_MEDIUM_MAX_MS read as inclusive
  maxima, but buttons.c:131-142 compares with strict `<`, so they are
  exclusive: a press of exactly 2000 ms is MEDIUM and one of exactly 4000 ms
  is LONG.
- chrono.h documents `chrono_reset` as stopping the stopwatch. The code in
  chrono.c:23-28 zeroes the total, keeps a running stopwatch running and
  re-anchors its start time.
- The state enum contains the header's six states and the three states that
  app.c also uses (SETTINGS_CONTROL_POINT, SETTINGS_EXIT, SETTINGS_CP_ALPHA).
  SETTINGS_EXIT, SETTINGS_CP_ALPHA and the header's SETTINGS have no case in
  the dispatcher, so they take the default branch and absorb every later
  event.

## Model

| member | source | states |
|---|---|---|
| `CInt.Div` | components/chrono/chrono.c:35 | C's signed `/` by a positive divisor: the quotient truncates toward zero, and the remainder it leaves lies strictly within the divisor on the dividend's side |
| `CInt.Rem` | components/settings/settings.c:127 | C's `%`: it satisfies a == b*Div(a,b) + r and takes the sign of the dividend |
| `CInt.NonNegativeAgrees` | components/display/display.c:148-154 | on non-negative operands C's `/` and `%` coincide with Dafny's |
| `SettingsTypes.ControlPointToString` | components/settings_types/settings_types.c:3-15 | "None" exactly for NONE; "Unknown" exactly outside NONE..ECHO; a playable point's name starts with its own letter (ALPHA with A, through ECHO with E) |
| `SettingsTypes.ControlPointNamesDistinct` | components/settings_types/settings_types.c:3-15 | distinct enum values in NONE..ECHO get distinct names |
| `SettingsTypes.GenericEnableToString` | components/settings_types/settings_types.c:17-27 | "ON" exactly when enabled, "OFF" exactly when disabled |
| `Chrono.AfterStart` | components/chrono/chrono.c:4-11 | afterwards the stopwatch runs and its total is kept; starting a running one changes nothing; the elapsed time at `now` is unchanged |
| `Chrono.AfterStop` | components/chrono/chrono.c:13-21 | afterwards it is stopped; stopping a stopped one changes nothing; the elapsed time at `now` is unchanged, so the run is folded into the total; with a sane clock the total never decreases |
| `Chrono.AfterReset` | components/chrono/chrono.c:23-28 | the total becomes 0 and the running flag is kept; elapsed time at `now` is 0; a stopped stopwatch keeps its start time |
| `Chrono.Seconds` | components/chrono/chrono.c:30-41 | for a non-negative elapsed time, the whole number of seconds elapsed (floor of µs / 10^6) |
| `Chrono.StartThenStop` | components/chrono/chrono.c:4-21 | start at t0 then stop at t1 adds exactly t1 - t0 to the total |
| `Chrono.StartStopIdempotent` | components/chrono/chrono.c:4-28 | a second start, a second stop, or a second reset at the same instant changes nothing |
| `Chrono.StoppedSecondsConstant` | components/chrono/chrono.c:37-40 | a stopped stopwatch reads the same seconds at every instant |
| `Chrono.ResetCountsFromZero` | components/chrono/chrono.c:23-28 | after a reset at `now`, elapsed time at a later instant is `later - now` when running and 0 when stopped |
| `Chrono.ElapsedMonotone` | components/chrono/chrono.c:30-41 | with a clock that does not go back, elapsed time never decreases and is non-negative for a non-negative total |
| `Chrono.SecondsMonotone` | components/chrono/chrono.c:30-41 | the seconds reading never decreases as time passes |
| `Chrono.Stopwatch.constructor` | components/chrono/include/chrono.h:38 | a new stopwatch is CHRONO_DEFAULT: start 0, total 0, stopped |
| `Chrono.Stopwatch.Start` | components/chrono/chrono.c:4-11 | the fields become `AfterStart` of the old fields |
| `Chrono.Stopwatch.Stop` | components/chrono/chrono.c:13-21 | the fields become `AfterStop` of the old fields |
| `Chrono.Stopwatch.Reset` | components/chrono/chrono.c:23-28 | the fields become `AfterReset` of the old fields |
| `Dispatcher.EventQueue.constructor` | components/app/app.c:40 | the queue starts empty |
| `Dispatcher.EventQueue.Send` | components/buttons/buttons.c:144 | a message is appended exactly when fewer than 10 are queued; otherwise the queue is unchanged and the send reports failure |
| `Dispatcher.EventQueue.Receive` | components/app/app.c:67 | an empty queue yields nothing; otherwise the oldest message is returned and removed (FIFO) |
| `Buttons.IsrBits` | components/buttons/buttons.c:72-93 | GPIO 5 sets exactly the RED bit, GPIO 4 exactly the BLUE bit, any other pin sets none |
| `Buttons.SelectGroup` | components/buttons/buttons.c:109-116 | both bits select the combined press, one bit selects its button, and no bit selects nothing (all four as if-and-only-if) |
| `Buttons.Classify` | components/buttons/buttons.c:131-142 | SHORT iff under 2000 ms, MEDIUM iff in [2000, 4000), LONG iff at least 4000 ms |
| `Buttons.PressEvent` | components/buttons/buttons.c:116-209 | the event encodes its group and bucket, and `PressKind` decodes them back; it is never the timer event |
| `Buttons.PressEventOnto` | components/buttons/buttons.c:116-209 | every button event is produced by exactly the group and bucket it names |
| `Buttons.StillHeld` | components/buttons/buttons.c:124 | the do-while condition: the BOTH loop goes on exactly while both lines are held (releasing either ends it); the RED or BLUE loop exactly while its own line is held, whatever the other line reads |
| `Buttons.PollCount` | components/buttons/buttons.c:118-124 | 1 to 1000 polls; the line(s) were held at every poll but the last; below the cap the last poll saw a release |
| `Buttons.PollsFrom` | components/buttons/buttons.c:118-124 | the remaining polls from poll k on, with the same held and released facts |
| `Buttons.PollPress` | components/buttons/buttons.c:149-155 | the do-while loop performs exactly `PollCount` polls |
| `Buttons.BucketOfPolls` | components/buttons/buttons.c:155-173 | under 200 polls gives SHORT, 200-399 MEDIUM, 400 or more LONG; a press held to the cap is LONG |
| `Buttons.EpisodeEvent` | components/buttons/buttons.c:101-209 | no event iff the snapshot has neither bit; otherwise the event of the selected group and the bucket of its poll count |
| `Buttons.EdgeAfterReleaseIsShortPress` | components/buttons/buttons.c:101-211 | a RED bit left set while the line is already released produces a RED SHORT event |
| `Buttons.ButtonEventGroup.constructor` | components/buttons/buttons.c:39 | the event group starts with no bits |
| `Buttons.ButtonEventGroup.IsrHandler` | components/buttons/buttons.c:72-93 | the ISR ORs in `IsrBits` of its pin |
| `Buttons.ButtonEventGroup.RaiseFromIsr` | components/buttons/buttons.c:79-86 | edges from the ISR are ORed in |
| `Buttons.ButtonEventGroup.ClearBits` | components/buttons/buttons.c:211 | exactly the given bits are cleared |
| `Buttons.ButtonTaskPass` | components/buttons/buttons.c:98-213 | produces `EpisodeEvent` of the snapshot; it is queued iff one was produced and the queue had room; edges raised during polling survive and only the snapshot bits are cleared |
| `Storage.SetControlPoint` | components/storage/storage.c:17-32 | a non-playable value gives INVALID_ARG with flash untouched; an open error is returned with flash untouched; commit happens only after a successful open and set; Ok iff open, set and commit all succeed, and then the key holds the value |
| `Storage.GetControlPoint` | components/storage/storage.c:34-59 | no out pointer gives INVALID_ARG; on any error the out value is untouched; Ok iff the key is present and below COUNT, and then the out value is that playable point; a missing key gives NOT_FOUND, a stored byte of 5 or more INVALID_RESPONSE |
| `Storage.SetThenGet` | components/storage/storage.c:17-59 | a successful set is read back exactly by the next get |
| `Storage.GetYieldsPlayable` | components/storage/storage.c:46-56 | a successful get never yields NONE or an out-of-range point |
| `Storage.NvsStore.constructor` | components/storage/storage.c:17-59 | the NVS image starts with the given entries and no commits |
| `Storage.NvsStore.SetControlPointIn` | components/storage/storage.c:17-32 | the store and the error become those of `SetControlPoint` |
| `Storage.NvsStore.GetControlPointFrom` | components/storage/storage.c:34-59 | reading changes nothing, and the error and out value are those of `GetControlPoint` |
| `Settings.Next` | components/settings/settings.c:124-127 | the cursor moves CP to BEEP to EXIT and back to CP; the setting is unchanged |
| `Settings.NextControlPoint` | components/settings/settings.c:171 | NONE and ECHO go to ALPHA, any other playable point to the next one; the result is always playable |
| `Settings.ModifyCurrent` | components/settings/settings.c:163-198 | on CP the point advances, on BEEP the flag flips, and on EXIT or anything else nothing changes; the cursor is kept |
| `Settings.NextCycles` | components/settings/settings.c:124-127 | three `Next` calls return to the same menu |
| `Settings.ControlPointCycles` | components/settings/settings.c:169-175 | five modifications on CP return to the same point |
| `Settings.BeepToggleInvolution` | components/settings/settings.c:177-183 | two modifications on BEEP restore it |
| `Settings.Load` | components/settings/settings.c:75-98 | reads the control point, then the beep flag, and stops at the first error; a failed control-point read leaves the setting unchanged and is returned; Ok iff both reads succeed; the beep flag changes only then |
| `Settings.Save` | components/settings/settings.c:100-122 | writes the control point first; a failed write is returned and the beep is never written; otherwise the result is the beep write's |
| `Settings.SaveThenLoad` | components/settings/settings.c:75-122 | a control point saved successfully is read back unchanged, and with a beep read that answers the saved flag the whole setting loads back unchanged |
| `Settings.Init` | components/settings/settings.c:66-73 | the cursor returns to CP whatever the load reports, and the setting is what the load left |
| `Settings.SettingTypeToString` | components/settings/settings.c:9-24 | "UNKNOWN" exactly outside CP..COUNT; otherwise a "SETTING_" name |
| `Settings.SettingTypeToShortString` | components/settings/settings.c:26-41 | "UNK" exactly outside CP..COUNT; names have 2 to 4 characters |
| `Settings.ControlPointToShortString` | components/settings/settings.c:43-64 | "UNK" exactly outside NONE..COUNT; a playable point is its single letter A-E |
| `Settings.ShortNamesDistinct` | components/settings/settings.c:26-64 | distinct in-range values get distinct short names in both tables |
| `Settings.SettingsMenu.constructor` | components/settings/settings.c:6-7 | the zero-initialised statics: cursor CP, point ALPHA, beep off |
| `Settings.SettingsMenu.NextSetting` | components/settings/settings.c:124-161 | the menu becomes `Next` of the old menu |
| `Settings.SettingsMenu.ModifyCurrentSetting` | components/settings/settings.c:163-198 | the menu becomes `ModifyCurrent` of the old menu |
| `Settings.SettingsMenu.LoadSettings` | components/settings/settings.c:75-98 | the setting, the error and the calls are those of `Load`; the cursor is kept |
| `Settings.SettingsMenu.SaveSettings` | components/settings/settings.c:100-122 | the store, the error and the calls are those of `Save` |
| `Settings.SettingsMenu.InitSettings` | components/settings/settings.c:66-73 | the menu becomes `Init` of the old menu |
| `Settings.SettingsMenu.GetCurrent` | components/settings/settings.c:200-203 | returns the cursor |
| `Display.SplitTime` | components/display/display.c:148-154 | for 0..5999 seconds the four digits are decimal digits and rejoin to the seconds as MM*60+SS |
| `Display.SplitJoin` | components/display/display.c:148-154 | splitting is the inverse of joining for every valid digit quadruple |
| `Display.Segments` | components/display/display.c:156-164 | four glyphs from the digit table, with the colon bit ORed into the second one only when asked |
| `Display.SegmentWrites` | components/display/display.c:166-169 | one fixed-segment write per position 0..3, in order |
| `Display.Selection` | components/display/display.c:104-146 | INVALID_ARG exactly for an unknown display, FAIL exactly for an uninitialised known one |
| `Display.SetTime` | components/display/display.c:96-173 | seconds out of range give INVALID_ARG before the display is checked; any error sends nothing; success sends exactly the four segment writes |
| `Display.SetBrightnessLevel` | components/display/display.c:35-94 | a level outside 0..7 gives INVALID_ARG before the display is checked; any error sends nothing; success sends one brightness command |
| `Display.DisplayBank.constructor` | components/display/display.c:9-10 | both panels start uninitialised with nothing sent |
| `Display.DisplayBank.InitDisplays` | components/display/display.c:12-33 | RED is set up first; a RED failure returns FAIL without trying BLUE; Ok iff both succeed |
| `Display.DisplayBank.SetTimeOn` | components/display/display.c:96-173 | the error and the new panels are those of `SetTime` |
| `Display.DisplayBank.SetBrightnessOn` | components/display/display.c:35-94 | the error and the new panels are those of `SetBrightnessLevel` |
| `App.Step` | components/app/app.c:70-696 | the transition table; no transition enters INIT, only INIT's transitions touch the setup-timer flag and none re-arms it, and SETTINGS, SETTINGS_EXIT and SETTINGS_CP_ALPHA change nothing |
| `App.Run` | components/app/app.c:62-67 | the receive loop over events in order; once INIT is left it never returns, and the setup-timer flag is never re-armed and is frozen outside INIT |
| `App.BootControlPoint` | components/app/app.c:31-36 | the stored point when the read succeeds; ALPHA whenever the read fails (key missing, open failure, or a stored byte of 5 or more); always playable |
| `App.Boot` | components/app/app.c:26-60 | halts iff the queue or the timer cannot be created; otherwise both stopwatches are default, the state is INIT with the timer armed, or IDLE when the timer does not start, and the machine starts exclusive |
| `App.Winner` | components/app/app.c:372-376 | BLUE iff its seconds are at least RED's; a tie goes to BLUE |
| `App.Announcement` | components/app/app.c:364-394 | a winner is announced exactly on the events that end a game |
| `App.InitTransitions` | components/app/app.c:73-196 | SHORT and MEDIUM presses of any kind go to IDLE and stop the setup timer; the timer event goes to IDLE; a combined LONG press goes to SETTINGS_CONTROL_POINT and stops the timer; single LONG presses are ignored; stopwatches untouched |
| `App.IdleTransitions` | components/app/app.c:198-297 | a team's SHORT or MEDIUM press starts its stopwatch, stops the other and enters its RUNNING state; everything else is ignored |
| `App.RunningTransitions` | components/app/app.c:299-515 | the running team's own presses and the other team's LONG press are ignored; the other team's SHORT or MEDIUM press hands over; a combined MEDIUM or LONG press enters FINISHED with each stopwatch stopped, its run folded into its total; a combined SHORT press and the timer are ignored |
| `App.WinnerAtFinish` | components/app/app.c:364-394 | ending the game enters FINISHED, and BLUE is announced iff its stopped seconds are at least RED's |
| `App.FinishedTransitions` | components/app/app.c:517-604 | a combined MEDIUM or LONG press returns to IDLE with both totals zero; everything else is ignored |
| `App.SettingsControlPointTransitions` | components/app/app.c:606-688 | BLUE SHORT goes to SETTINGS_EXIT, RED SHORT to SETTINGS_CP_ALPHA, a combined MEDIUM or LONG press to IDLE; nothing else and nothing but the state changes |
| `App.DeadEndStatesAbsorb` | components/app/app.c:690-694 | from SETTINGS, SETTINGS_EXIT or SETTINGS_CP_ALPHA no sequence of events changes anything |
| `App.StepKeepsExclusive` | components/app/app.c:198-604 | every transition keeps each stopwatch running exactly in its team's RUNNING state |
| `App.RunKeepsExclusive` | components/app/app.c:62-700 | the same over any sequence of events, so the two stopwatches never run together |
| `App.AtMostOneRunningAfterBoot` | components/app/app.c:26-700 | from boot, after any events, at most one stopwatch runs |
| `App.StepKeepsClock` | components/app/app.c:198-604 | a transition at an instant the clock has reached keeps both stopwatches consistent with later instants; no total decreases except through the reset that leaves FINISHED |
| `App.TotalsNeverDecrease` | components/app/app.c:62-700 | over events at non-decreasing instants, neither team's total decreases unless a combined MEDIUM or LONG press is handled in FINISHED; ending a game only adds time |
| `App.RunAppend` | components/app/app.c:62-67 | handling one more event is one more transition after the earlier ones |
| `App.ExampleGame` | components/app/app.c:198-604 | RED presses at t, BLUE at t+5 s, both at t+8 s: FINISHED with RED 5 s, BLUE 3 s, RED announced; both again: IDLE with zero totals |
| `App.InitialSetupTimerCallback` | components/app/app.c:704-709 | enqueues the timer event, which is dropped when the queue is full |
| `App.AppTask.constructor` | components/app/app.c:26-60 | the task's globals after boot are those `Boot` describes, with an empty queue |
| `App.AppTask.GetAppState` | components/app/app.c:21-24 | returns the current state |
| `App.AppTask.FinishGame` | components/app/app.c:364-378 | enters FINISHED with both stopwatches stopped and announces `Winner` of their seconds |
| `App.AppTask.HandleEvent` | components/app/app.c:67-696 | the globals become `Step` of the old ones, the control point is kept, and the announced winner is `Announcement` |
| `App.AppTask.SetupTimerExpires` | components/app/app.c:47-60 | the one-shot timer fires only while armed, disarms itself and enqueues the timer event; the state is untouched until that event is received |
| `App.AppTask.ConsumeQueued` | components/app/app.c:62-700 | the receive loop empties the queue, and the globals become `Run` over the queued events in FIFO order |

## Left out

- FreeRTOS scheduling is not modelled. Tasks, priorities, blocking waits and the queue-send timeout are absent: a send to a full queue fails at once.
- The interleaving of the button task, the app task and the timer task is not modelled. The model gives the order of handled events as a sequence.
- Time is a parameter. `esp_timer_get_time()` is the `now` of each operation. Each event is handled at one instant, which every stopwatch call of that event uses; the source reads the clock once per call.
- Tick jitter is not modelled. A press lasts exactly polls × 10 ms, and the 200 ms debounce delay comes before timing starts.
- Chrono.AfterStop: the int64 fields, the int64 arithmetic and the int returned by `chrono_get_seconds` do not wrap in the model. The stopwatch fields are unbounded integers.
- Chrono.Seconds: the floor property is stated only for a non-negative elapsed time. A negative one can arise only from a clock that goes back.
- LEDs, the buzzer, logging and the HTTP server / Wi-Fi are not modelled. They are outputs of the transitions or separate components.
- `display_set_string` is not modelled; its definition is not part of this model. The settings functions' display calls are therefore omitted.
- error_signaling's fatal loops become the `Halted` boot outcome.
- `storage_init` is not modelled. Erasing and re-initialising the NVS partition is a library operation.
- Storage.GetControlPoint: NVS type-mismatch and other library errors of `nvs_get_u8` are not distinguished. The only read errors are a missing key and an open failure, which is a parameter.
- The beep setting's persistence (`storage_get_beep`, `storage_set_beep`) is an abstract fallible call. Its functions are not part of this model. Settings.Load assumes that a failed beep read leaves the flag untouched.
- `button_init` is not modelled. GPIO configuration and the held-at-startup check are hardware set-up.
- `settings_enter`, `settings_get_control_point` and `settings_get_beep` are not modelled. settings.h declares them, but settings.c does not define them.
- `app_state_to_string` and `app_event_to_string` are not modelled. app.h declares them, but app.c does not define them.
- Settings.SaveThenLoad: the beep half of the round trip is a hypothesis. The beep read's answer is a parameter equal to the saved flag, because `storage_get_beep` and `storage_set_beep` are not part of this model; only the control point's round trip through NVS is proved.
- Settings.Init: settings.h declares `settings_init` as returning an error, but settings.c defines it as `void` and ignores the load result. The model follows the code.
- The app task does not call the settings component; the two are modelled separately, as in the source.
