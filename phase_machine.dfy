/**
  The work/rest phase state machine of work_rest.py as functions over a
  timer value: each function gives the timer after one of the source's
  timer functions has run. The widget updates are left out; the
  notifications are kept as a log of their titles.
 */
module PhaseMachine {
  import opened Wrappers
  import opened Config

  datatype Phase = Idle | Work | EyeBreak | HandBreak | Paused {
    /** The phases that run a countdown. */
    predicate Active() {
      this == Work || this == EyeBreak || this == HandBreak
    }
  }

  /** The part of CONFIG the timer reads: the selected mode and the four durations. */
  datatype Settings = Settings(mode: Mode, eyeWorkMin: int, eyeBreakSec: int, handWorkMin: int, handBreakMin: int)

  /** The ranges the settings dialog's spin boxes offer. */
  predicate ValidSettings(s: Settings) {
    && 5 <= s.eyeWorkMin <= 180
    && 5 <= s.eyeBreakSec <= 300
    && 10 <= s.handWorkMin <= 240
    && 1 <= s.handBreakMin <= 60
  }

  /**
    The module globals of the timer.
    - pending: `current_after is not None`, a tick callback is scheduled.
    - prevPhase: prev_phase_var, None while it still holds "".
    - savedWork: Some(w) while `next_phase` is the temporary handler installed by
      an inline eye break, whose closure holds paused_remaining == w; None while it
      is the original next_phase.
    - backupWork: next_phase_backup, in the same encoding.
    - log: the titles passed to notify, oldest first.
   */
  datatype Timer = Timer(
    phase: Phase,
    remaining: int,
    total: int,
    eyeDue: int,
    prevPhase: Option<Phase>,
    pending: bool,
    savedWork: Option<int>,
    backupWork: Option<int>,
    log: seq<string>)

  const WORK_FINISHED: string := "Work finished"
  const BREAK_FINISHED: string := "Break finished"
  const EYE_BREAK_OVER: string := "Eye break"

  function Max(a: int, b: int): int {
    if a >= b then a else b
  }

  /** The globals when the program starts. */
  function Initial(): Timer {
    Timer(Idle, 0, 0, 0, None, false, None, None, [])
  }

  function ScheduleTick(t: Timer): Timer {
    t.(pending := true)
  }

  function CancelTick(t: Timer): Timer {
    t.(pending := false)
  }

  function Notify(t: Timer, title: string): Timer {
    t.(log := t.log + [title])
  }

  function StartCountdown(t: Timer, seconds: int): Timer {
    ScheduleTick(t.(remaining := seconds, total := seconds))
  }

  function FinishCycle(t: Timer): Timer {
    CancelTick(t.(phase := Idle))
  }

  /** begin_work: any mode other than eye and hand takes the combined branch. */
  function BeginWork(t: Timer, s: Settings): Timer {
    match s.mode
    case Eye => StartCountdown(t.(phase := Work), s.eyeWorkMin * 60)
    case Hand => StartCountdown(t.(phase := Work), s.handWorkMin * 60)
    case _ => StartCountdown(t.(phase := Work, eyeDue := s.eyeWorkMin * 60), s.handWorkMin * 60)
  }

  function BeginEyeBreak(t: Timer, seconds: int): Timer {
    StartCountdown(t.(phase := EyeBreak), seconds)
  }

  function BeginHandBreak(t: Timer, seconds: int): Timer {
    StartCountdown(t.(phase := HandBreak), seconds)
  }

  /**
    start_eye_break_inline: the work countdown is parked in the temporary
    handler, whatever handler was installed before becomes the backup.
   */
  function StartEyeBreakInline(t: Timer, s: Settings): Timer {
    var c := CancelTick(t);
    var b := ScheduleTick(c.(phase := EyeBreak, remaining := s.eyeBreakSec, total := s.eyeBreakSec));
    b.(backupWork := t.savedWork, savedWork := Some(t.remaining))
  }

  /** back_to_work, with the paused_remaining of its closure. */
  function BackToWork(t: Timer, saved: int, s: Settings): Timer {
    ScheduleTick(t.(phase := Work, remaining := saved, total := Max(t.total, saved),
                    eyeDue := s.eyeWorkMin * 60))
  }

  /** The original next_phase: the completion table. */
  function TableNextPhase(t: Timer, s: Settings): Timer {
    if t.phase == Work then
      var n := Notify(t, WORK_FINISHED);
      if s.mode == Eye then BeginEyeBreak(n, s.eyeBreakSec)
      else BeginHandBreak(n, s.handBreakMin * 60)
    else if t.phase == EyeBreak || t.phase == HandBreak then
      FinishCycle(Notify(t, BREAK_FINISHED))
    else
      t
  }

  /**
    A call of whatever `next_phase` currently is: the temporary handler
    (tmp_next_phase) restores the backup and returns to work, whatever the phase.
   */
  function NextPhase(t: Timer, s: Settings): Timer {
    match t.savedWork
    case Some(saved) => BackToWork(Notify(t.(savedWork := t.backupWork), EYE_BREAK_OVER), saved, s)
    case None => TableNextPhase(t, s)
  }

  /** tick. */
  function Tick(t: Timer, s: Settings): Timer {
    if t.phase == Paused then t
    else if t.remaining > 0 then
      var d := t.(remaining := t.remaining - 1);
      if d.phase == Work && s.mode == Combined then
        var e := if d.eyeDue > 0 then d.(eyeDue := d.eyeDue - 1) else d;
        if e.eyeDue == 0 && e.remaining > 0 then StartEyeBreakInline(e, s)
        else ScheduleTick(e)
      else
        ScheduleTick(d)
    else
      NextPhase(t, s)
  }

  /** on_start. */
  function OnStart(t: Timer, s: Settings): Timer {
    if t.phase == Idle then BeginWork(t, s) else t
  }

  /** on_pause_resume: one button that pauses a running phase and resumes a paused one. */
  function OnPauseResume(t: Timer): Timer {
    if t.phase == Paused then ScheduleTick(t.(phase := t.prevPhase.GetOr(Work)))
    else if t.phase.Active() then CancelTick(t.(prevPhase := Some(t.phase), phase := Paused))
    else t
  }

  /** on_stop. */
  function OnStop(t: Timer): Timer {
    FinishCycle(CancelTick(t))
  }

  /** `n` tick callbacks in a row. */
  function Ticks(t: Timer, s: Settings, n: nat): Timer {
    if n == 0 then t else Tick(Ticks(t, s, n - 1), s)
  }

  /** What the driver can do: the buttons, the clock firing, the radio buttons and the settings dialog. */
  datatype Event =
    | Start
    | Fire
    | PauseResume
    | Stop
    | ChooseMode(mode: Mode)
    | Configure(eyeWorkMin: int, eyeBreakSec: int, handWorkMin: int, handBreakMin: int)

  predicate ValidEvent(e: Event) {
    e.Configure? ==> ValidSettings(Settings(Eye, e.eyeWorkMin, e.eyeBreakSec, e.handWorkMin, e.handBreakMin))
  }

  datatype Machine = Machine(timer: Timer, settings: Settings)

  /** on_stop as evidently intended: the cycle's temporary handler does not outlive it. */
  function OnStopRestoringHandler(t: Timer): Timer {
    OnStop(t).(savedWork := None, backupWork := None)
  }

  /**
    One driver event. The clock fires only a scheduled callback. With
    `restoreOnStop` the Stop button runs OnStopRestoringHandler instead of
    the source's on_stop.
   */
  function Step(m: Machine, e: Event, restoreOnStop: bool): Machine {
    match e
    case Start => m.(timer := OnStart(m.timer, m.settings))
    case Fire => if m.timer.pending then m.(timer := Tick(m.timer, m.settings)) else m
    case PauseResume => m.(timer := OnPauseResume(m.timer))
    case Stop => m.(timer := if restoreOnStop then OnStopRestoringHandler(m.timer) else OnStop(m.timer))
    case ChooseMode(mode) => m.(settings := m.settings.(mode := mode))
    case Configure(ew, eb, hw, hb) =>
      m.(settings := Settings(m.settings.mode, ew, eb, hw, hb))
  }

  function Run(m: Machine, events: seq<Event>, restoreOnStop: bool): Machine
    decreases |events|
  {
    if events == [] then m else Run(Step(m, events[0], restoreOnStop), events[1..], restoreOnStop)
  }
}
