# Work/rest interval timer — Dafny model

This project models the timer core of `work_rest.py`, a desktop timer that alternates work periods with breaks. It has three regimens:
- **eye**: work, then a short eye break in seconds.
- **hand**: work, then a hand break in minutes.
- **combined**: a long hand-work block, interrupted every `eye.work_min` minutes by an inline eye break, and ended by a hand break.

The model covers three parts:
- the phase state machine (`tick`, `next_phase`, `finish_cycle`, `begin_work`, `begin_eye_break`, `begin_hand_break`, `start_eye_break_inline`, `on_start`, `on_pause_resume`, `on_stop`, `schedule_tick`/`cancel_tick`);
- the `MM:SS` formatter `format_time`;
- the merge step of `load_config`.

Files and modules:

- `wrappers.dfy` (`Wrappers`): `Option`.
- `config.dfy` (`Config`): JSON values, `DEFAULT_CONFIG`, the merge as a function (`Merged`), and the merge loop as a method proved equal to it (`Merge`, `LoadConfig`).
- `time_format.dfy` (`TimeFormat`): `format_time`, with Python's `divmod` and `02d` padding, and a parser it round-trips with.
- `phase_machine.dfy` (`PhaseMachine`): the timer globals as a `Timer` value. Each timer function is a function on that value. `Step`/`Run` replay the driver's events: buttons, clock ticks, mode radio buttons, settings saves.
- `phase_properties.dfy` (`PhaseProperties`): the invariant (`0 <= remaining <= total`, "a callback is scheduled exactly while a phase runs", …). Also lemmas for the completion table, the nested eye break and its return, pause/resume, stop, and whole cycles.
- `timer.dfy` (`TimerObject`): class `WorkRestTimer`, whose fields are the module globals plus the CONFIG entries the timer reads. Each method updates the fields as the source does. It is proved to yield the `PhaseMachine` state and to keep the invariant.

Modelling choices:

- **The monkey-patched `next_phase`.** `start_eye_break_inline` swaps `next_phase` for a closure at runtime. The model makes that two fields:
  - `savedWork`: `Some(w)` while the temporary handler is installed, where `w` is its closure's `paused_remaining`; `None` while the original `next_phase` is.
  - `backupWork`: holds `next_phase_backup` in the same encoding.

  Every completion calls `NextPhase`. While a temporary handler is installed, it runs whatever the phase: it puts the backup back, notifies "Eye break" and returns to work with `w`. Only otherwise does `NextPhase` apply the completion table. Neither `finish_cycle` nor `on_stop` touches these fields. A second inline break started while a stale handler is still installed keeps that stale handler as its backup. This stale-handler path is modelled as written, not excluded by a precondition (see Findings).
- **`back_to_work`** sets `total = max(total, paused_remaining)`. At that moment `total` is the eye-break length, not the original work total.
- **The mode is read live.** `tick` tests `mode == "combined"`, while `begin_work` and `next_phase` branch on eye/hand/otherwise. So a mode value other than the three names (possible from a hand-edited settings file) is modelled as `Unrecognised`. It starts a combined-length work block but gets no inline eye breaks and ends in a hand break. The driver may change the mode at any time (`ChooseMode`, `SelectMode`).
- **The clock.** `root.after`/`after_cancel` become the flag `pending` (`current_after is not None`). The clock fires `Tick` only while a callback is scheduled.
- **Notifications.** `notify`, `play_beep` and the toast/messagebox threads become a log of notification titles.

Behaviour the model keeps as the code has it, though a reader might expect otherwise:
- `on_stop` does not clear the countdown, the eye cadence or the temporary handler.
- Pause and resume are one toggle (`on_pause_resume`): a second press resumes, it is not a no-op.
- The hand break lasts `hand.break_min * 60` seconds.
- A phase of N seconds completes on its (N+1)-th tick, because completion happens only on a tick that finds `remaining == 0`.

## Model

| member | source | states |
|---|---|---|
| `Config.Merged` | work_rest.py:37-43 | the result holds every default key and every file key. Keys only in the defaults keep the default value. A key whose file and default values are both objects gets the default object overridden key by key. Every other file key, unknown ones included, is taken verbatim. An empty file yields the defaults |
| `Config.Merge` | work_rest.py:37-43 | the loop over the file's entries, updating a copy of the defaults, yields exactly `Merged(defaults, file)` |
| `Config.LoadConfig` | work_rest.py:32-46 | the result always holds every default key. A file holding a JSON object yields exactly the merge `Merged(defaults, file)`. A missing or unreadable file, or a JSON value that is not an object, yields the defaults |
| `Config.NestedMergeKeyByKey` | work_rest.py:39-40 | inside a merged nested object, a key is present iff it is in either object. It takes the file's value when the file has it, and the default's otherwise |
| `Config.ModeFromFile` | work_rest.py:37-43 | a file holding only `mode` gets that mode, with the same keys and the same values as the defaults for every other key. "eye", "hand" and "combined" select their regimens; any other name is read as an unrecognised mode |
| `TimeFormat.FormatTime` | work_rest.py:150-152 | for `sec >= 0` the display is a field of decimal digits, a colon, and exactly two digits |
| `TimeFormat.FormatTimeRoundTrip` | work_rest.py:150-152 | for `sec >= 0` the minutes field denotes `sec / 60` and has at least 2 digits. The seconds field is 2 digits denoting `sec % 60 < 60`. Below 100 minutes the display is exactly 5 characters, and a longer one has no leading zero. Parsing the display gives back `sec` |
| `TimeFormat.FormatTimeLongMinutes` | work_rest.py:150-152 | the minutes field is not capped: 6000 s shows as `100:00` |
| `TimeFormat.FormatTimeNegative` | work_rest.py:150-152 | a negative count follows floor `divmod`: -1 shows as `-1:59` |
| `Config.Defaults` | work_rest.py:24-30 | the built-in configuration: eye mode, eye work 20 min and break 20 s, hand work 50 min and break 3 min, toast and sound on |
| `Config.ModeOf` | work_rest.py:172 | the mode is Eye iff the key is missing or holds "eye", as with the "eye" default of the lookup. It is Combined iff the key holds "combined", the one value tick's combined test accepts. It is Hand iff the key holds "hand" |
| `TimeFormat.Pad2` | work_rest.py:152 | the `02d` format: a non-negative number zero-filled to at least two digits; a negative one as a minus sign and its digits |
| `PhaseMachine.Initial` | work_rest.py:90-94 | definition: idle, zero countdown and cadence, nothing scheduled, no recorded pause phase, the original handler, empty log |
| `PhaseMachine.ScheduleTick` | work_rest.py:98-100 | definition: a tick becomes scheduled |
| `PhaseMachine.CancelTick` | work_rest.py:140-147 | definition: no tick is scheduled |
| `PhaseMachine.Notify` | work_rest.py:59-65 | definition: appends the title to the log |
| `PhaseMachine.StartCountdown` | work_rest.py:103-111 | definition: remaining and total both set to the seconds, and a tick scheduled |
| `PhaseMachine.FinishCycle` | work_rest.py:188-197 | definition: idle with the tick cancelled; countdown, cadence and handlers are left as they are |
| `PhaseMachine.BeginWork` | work_rest.py:201-222 | definition: work of `eye.work_min * 60` in eye mode, `hand.work_min * 60` in hand mode, and otherwise `hand.work_min * 60` with the cadence set to `eye.work_min * 60`; properties in `OnStartSpec` |
| `PhaseMachine.BeginEyeBreak` | work_rest.py:269-273 | definition: eye break with a fresh countdown |
| `PhaseMachine.BeginHandBreak` | work_rest.py:276-280 | definition: hand break with a fresh countdown |
| `PhaseMachine.StartEyeBreakInline` | work_rest.py:225-266 | definition: eye break of `eye.break_sec` with the work remainder parked in a new handler, whose backup is the handler installed before; properties in `InlineEyeBreakStarts` |
| `PhaseMachine.BackToWork` | work_rest.py:238-246 | definition: work with the parked remainder, `total = max(total, parked)`, the cadence re-armed and a tick scheduled |
| `PhaseMachine.TableNextPhase` | work_rest.py:169-185 | definition: the original next_phase; properties in `CompletionTable` |
| `PhaseMachine.NextPhase` | work_rest.py:257-266 | definition: a call of whatever handler is installed; the temporary one restores the backup first; properties in `PatchedCompletion` |
| `PhaseMachine.Tick` | work_rest.py:114-137 | definition of tick; properties in `TickWhilePaused`, `TickCountsDown`, `CompletionTable` and `PatchedCompletion` |
| `PhaseMachine.OnStart` | work_rest.py:284-286 | definition: begin_work from idle only; properties in `OnStartSpec` |
| `PhaseMachine.OnPauseResume` | work_rest.py:289-301 | definition of the pause/resume toggle; properties in `PauseResumeRoundTrip` and `PauseResumeWhenIdle` |
| `PhaseMachine.OnStop` | work_rest.py:304-306 | definition: cancel, then finish_cycle; properties in `OnStopSpec` |
| `PhaseMachine.OnStopRestoringHandler` | work_rest.py:304-306 | the corrected stop: as on_stop, and the original handler is reinstalled with no backup; properties in `RunConfinesHandler` |
| `PhaseMachine.Step` | work_rest.py:384-410 | definition of one driver event: the Start, Pause and Stop buttons, the clock firing a scheduled tick, a radio button, a settings save |
| `PhaseMachine.Run` | work_rest.py:384-410 | definition: the events applied in order; properties in `RunPreservesInv` |
| `PhaseProperties.InitialInv` | work_rest.py:90-94 | the start-up globals satisfy the invariant: idle, nothing scheduled |
| `PhaseProperties.OnStartSpec` | work_rest.py:201-222 | from idle: work with `remaining == total ==` the mode's work seconds (hand work when not eye mode) and a tick scheduled. Combined (or unrecognised) mode also sets the cadence to `eye.work_min * 60`; otherwise the cadence is unchanged. From any other phase nothing changes |
| `PhaseProperties.TickWhilePaused` | work_rest.py:114-117 | a tick of a paused timer changes nothing |
| `PhaseProperties.TicksWhilePaused` | work_rest.py:114-117 | any number of ticks of a paused timer change nothing |
| `PhaseProperties.TickCountsDown` | work_rest.py:119-134 | a tick that finds time left notifies nothing. Combined work whose cadence runs out with work left starts the eye break: fresh `eye.break_sec` countdown, cadence 0, remainder parked, old handler as backup. Otherwise the tick removes exactly one second, lowers the cadence in combined work, and changes nothing else |
| `PhaseProperties.CompletionTable` | work_rest.py:169-191 | with the original handler, a tick at zero ends the phase, and nothing else changes. Work becomes the eye break (`eye.break_sec`) in eye mode, or the hand break (`hand.break_min * 60`) otherwise, with fresh `remaining == total`, after notifying "Work finished". Either break becomes idle with nothing scheduled, after notifying "Break finished" |
| `PhaseProperties.InlineEyeBreakStarts` | work_rest.py:225-266 | in combined work, when the cadence reaches 0 with work left, the phase becomes the eye break with `remaining == total == eye.break_sec`. The remaining work is parked in the new handler, the old handler becomes the backup, a tick is scheduled, and nothing is notified |
| `PhaseProperties.PatchedCompletion` | work_rest.py:238-266 | at the next completion, whatever the phase, an installed temporary handler returns to work. It restores the parked remaining time, sets total to `max(total, parked)`, re-arms the cadence to `eye.work_min * 60`, installs the backup handler, schedules a tick, and notifies "Eye break". The backup itself and the recorded pause phase stay as they were |
| `PhaseProperties.StaleHandlerReinstallsItself` | work_rest.py:257-266 | a temporary handler that is its own backup installs itself again each time it fires |
| `PhaseProperties.PauseResumeRoundTrip` | work_rest.py:289-301 | from a running phase the toggle records the phase, pauses, and cancels the tick, keeping the countdown. The next toggle restores exactly the earlier state, with the tick scheduled again |
| `PhaseProperties.PauseResumeWhenIdle` | work_rest.py:289-301 | the toggle does nothing to an idle timer |
| `PhaseProperties.OnStopSpec` | work_rest.py:304-306 | stop from any phase gives idle with nothing scheduled and changes nothing else. Stop preserves the invariant |
| `PhaseProperties.StopThenFireIsIgnored` | work_rest.py:140-147 | after stop no tick callback is left to fire, so the clock cannot change the timer |
| `PhaseProperties.StepPreservesInv` | work_rest.py:114-306 | each driver event keeps the invariant and keeps the settings within the dialog's ranges |
| `PhaseProperties.RunPreservesInv` | work_rest.py:114-306 | after every sequence of events: `0 <= remaining <= total`, total positive outside idle, a tick scheduled exactly while work or a break runs, a pause remembering a running phase, and parked work positive |
| `PhaseProperties.Countdown` | work_rest.py:114-134 | outside combined work, n ticks with at least n seconds left remove exactly n seconds and change nothing else |
| `PhaseProperties.CombinedCountdown` | work_rest.py:125-134 | in combined work, n ticks before the cadence runs out lower both the remaining time and the cadence by n |
| `PhaseProperties.SingleModeCycle` | work_rest.py:169-222 | eye or hand mode, from idle: after work-seconds + 1 ticks the mode's break runs at full length, with "Work finished" notified. After break-seconds + 1 more ticks the timer is idle with nothing scheduled, after exactly two notifications. One tick fewer leaves each phase running |
| `PhaseProperties.CombinedMicroBreak` | work_rest.py:225-266 | combined mode, from idle, hand work longer than eye work: eye-work-seconds ticks start a full eye break with the rest of the work parked. `eye.break_sec + 1` more ticks return to work with exactly that remainder, the cadence re-armed, and one "Eye break" notification |
| `PhaseProperties.StaleHandlerAfterStop` | work_rest.py:304-306 | stop during an inline eye break leaves the handler installed. The next eye-mode cycle's work then ends back in work with the old combined remainder, not in the eye break the table gives |
| `PhaseProperties.StepConfinesHandler` | work_rest.py:248-266 | with a stop that restores the handler, each event keeps a temporary handler confined to its own eye break |
| `PhaseProperties.RunConfinesHandler` | work_rest.py:248-266 | with a stop that restores the handler, every run keeps temporary handlers confined to their eye break, with no backup of one |
| `PhaseProperties.CorrectedWorkCompletionFollowsTable` | work_rest.py:169-185 | with that stop, a work phase reached by any run completes by the table |
| `TimerObject.WorkRestTimer.constructor` | work_rest.py:90-94 | the globals start idle, with nothing scheduled, no handler and an empty log |
| `TimerObject.WorkRestTimer.SelectMode` | work_rest.py:387-390 | a radio button changes only the mode |
| `TimerObject.WorkRestTimer.Configure` | work_rest.py:360-367 | saving the dialog changes only the four durations |
| `TimerObject.WorkRestTimer.ScheduleTick` | work_rest.py:98-100 | a tick becomes scheduled |
| `TimerObject.WorkRestTimer.CancelTick` | work_rest.py:140-147 | no tick is scheduled afterwards |
| `TimerObject.WorkRestTimer.Notify` | work_rest.py:59-65 | the title is appended to the notification log |
| `TimerObject.WorkRestTimer.StartCountdown` | work_rest.py:103-111 | remaining and total both become the given seconds, and a tick is scheduled |
| `TimerObject.WorkRestTimer.FinishCycle` | work_rest.py:188-197 | idle with nothing scheduled |
| `TimerObject.WorkRestTimer.BeginWork` | work_rest.py:201-222 | the state `PhaseMachine.BeginWork` prescribes for the current mode |
| `TimerObject.WorkRestTimer.BeginEyeBreak` | work_rest.py:269-273 | eye break with a fresh countdown |
| `TimerObject.WorkRestTimer.BeginHandBreak` | work_rest.py:276-280 | hand break with a fresh countdown |
| `TimerObject.WorkRestTimer.StartEyeBreakInline` | work_rest.py:225-266 | eye break of `eye.break_sec`; the work remainder parked in a new handler, whose backup is the old one |
| `TimerObject.WorkRestTimer.BackToWork` | work_rest.py:238-246 | work with the parked remainder, `total = max(total, parked)`, the cadence re-armed, and a tick scheduled |
| `TimerObject.WorkRestTimer.NextPhase` | work_rest.py:169-185 | the installed handler's transition: the temporary one if present, else the completion table |
| `TimerObject.WorkRestTimer.Tick` | work_rest.py:114-137 | the state `PhaseMachine.Tick` prescribes; the invariant is kept |
| `TimerObject.WorkRestTimer.OnStart` | work_rest.py:284-286 | the state `PhaseMachine.OnStart` prescribes; the invariant is kept |
| `TimerObject.WorkRestTimer.OnPauseResume` | work_rest.py:289-301 | the state `PhaseMachine.OnPauseResume` prescribes; the invariant is kept |
| `TimerObject.WorkRestTimer.OnStop` | work_rest.py:304-306 | the state `PhaseMachine.OnStop` prescribes; the invariant is kept |

## Left out

- Tk widgets: labels, progress bar, button states, `current_label_text` and the titlebar theming. They are display only.
- The real clock `root.after`/`after_cancel`: modelled as the `pending` flag, with the driver firing `Tick` only while it is set.
- Sound, the toast/messagebox threads, and the `toast`/`sound` switches that silence them. These are fire-and-forget I/O; every `notify` call is recorded in the log whether or not it would show.
- The settings dialog's widgets: only its spin-box ranges (`ValidSettings`) and its effect on the four durations (`Configure`) are kept.
- Durations typed into a spin box outside its range (0 or 500, say): a `ttk.Spinbox` limits only its arrows, so such values reach `save_and_close`. The model assumes every duration lies within the ranges.
- JSON parsing, file access and `save_config`: the parse result is an input of `LoadConfig`. JSON numbers are whole numbers only (no floats).
- Reading the durations out of the merged configuration: the timer takes them as integers within the dialog's ranges. A settings file holding other values (strings, negative numbers) is not modelled on the timer side.
- Aliasing: the shallow `DEFAULT_CONFIG.copy()` shares the nested default dicts with CONFIG. The model works on values.
- TimeFormat.FormatTime: its contract and round trip cover `sec >= 0` only (the timer never shows a negative count); negative counts appear only through the `FormatTimeNegative` example.
- TimerObject.WorkRestTimer.Tick: requires a scheduled callback, because only the Tk clock calls `tick` and it runs only scheduled callbacks.

## Findings

| source | as written | input that shows it | evidently intended | confidence | as-written member | corrected member |
|---|---|---|---|---|---|---|
| work_rest.py:304-306 | `on_stop` (and `finish_cycle`) leave the temporary `next_phase` of an inline eye break installed | combined mode, start, run `eye.work_min * 60` ticks into the inline eye break, stop, switch to eye mode, start, run `eye.work_min * 60 + 1` ticks: the timer goes back to work with the old remainder and notifies "Eye break" instead of starting the eye break | stopping a cycle also restores the original `next_phase`, so the temporary handler never outlives its eye break | not executed | `PhaseProperties.StaleHandlerAfterStop` | `PhaseMachine.OnStopRestoringHandler`, proved by `PhaseProperties.RunConfinesHandler` and `PhaseProperties.CorrectedWorkCompletionFollowsTable` |
