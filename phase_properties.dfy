/** What the phase state machine of work_rest.py guarantees, stated over PhaseMachine. */
module PhaseProperties {
  import opened Wrappers
  import opened Config
  import opened PhaseMachine

  /** Seconds of a work phase started in the settings' mode. */
  function WorkSeconds(s: Settings): int {
    if s.mode == Eye then s.eyeWorkMin * 60 else s.handWorkMin * 60
  }

  /** Seconds of the break that follows a finished work phase. */
  function BreakSeconds(s: Settings): int {
    if s.mode == Eye then s.eyeBreakSec else s.handBreakMin * 60
  }

  /** The phase a finished work phase leads to. */
  function BreakPhase(s: Settings): Phase {
    if s.mode == Eye then EyeBreak else HandBreak
  }

  /**
    The timer invariant: the countdown stays within its total, a callback
    is scheduled exactly while a phase runs, a pause remembers a running
    phase, and the work parked by an inline eye break is positive.
   */
  predicate Inv(t: Timer) {
    && 0 <= t.remaining <= t.total
    && (t.phase != Idle ==> t.total > 0)
    && (t.pending <==> t.phase.Active())
    && (t.phase == Paused ==> t.prevPhase.Some?)
    && (t.prevPhase.Some? ==> t.prevPhase.value.Active())
    && t.eyeDue >= 0
    && (t.savedWork.Some? ==> t.savedWork.value > 0)
    && (t.backupWork.Some? ==> t.backupWork.value > 0)
  }

  lemma InitialInv()
    ensures Inv(Initial()) && Initial().phase == Idle && !Initial().pending
  {
  }

  // ----- on_start -----

  /** on_start starts work from idle, with the combined cadence armed; from any other phase it does nothing. */
  lemma OnStartSpec(t: Timer, s: Settings)
    ensures var r := OnStart(t, s);
      && (t.phase == Idle ==>
            && r.phase == Work && r.pending
            && r.remaining == r.total == WorkSeconds(s)
            && r.eyeDue == (if s.mode == Eye || s.mode == Hand then t.eyeDue else s.eyeWorkMin * 60)
            && r.prevPhase == t.prevPhase && r.savedWork == t.savedWork
            && r.backupWork == t.backupWork && r.log == t.log)
      && (t.phase != Idle ==> r == t)
  {
  }

  // ----- tick -----

  /** A tick of a paused timer changes nothing. */
  lemma TickWhilePaused(t: Timer, s: Settings)
    requires t.phase == Paused
    ensures Tick(t, s) == t
  {
  }

  /** However many callbacks reach a paused timer, it stays as it was. */
  lemma {:induction false} TicksWhilePaused(t: Timer, s: Settings, n: nat)
    requires t.phase == Paused
    ensures Ticks(t, s, n) == t
  {
    if n > 0 {
      TicksWhilePaused(t, s, n - 1);
    }
  }

  /**
    A tick that finds time left never completes the phase and notifies
    nothing: either it starts the inline eye break (combined work whose
    cadence runs out with work left), or it removes one second, lowers the
    combined cadence, and changes nothing else.
   */
  lemma TickCountsDown(t: Timer, s: Settings)
    requires Inv(t) && t.pending && t.remaining > 0
    ensures if t.phase == Work && s.mode == Combined && t.eyeDue <= 1 && t.remaining > 1
      then Tick(t, s) == t.(phase := EyeBreak, remaining := s.eyeBreakSec, total := s.eyeBreakSec,
                            eyeDue := 0, savedWork := Some(t.remaining - 1), backupWork := t.savedWork)
      else Tick(t, s) == t.(remaining := t.remaining - 1,
                            eyeDue := if t.phase == Work && s.mode == Combined && t.eyeDue > 0
                                      then t.eyeDue - 1 else t.eyeDue)
  {
  }

  /** The completion table: a tick finding no time left with the original handler installed. */
  lemma CompletionTable(t: Timer, s: Settings)
    requires Inv(t) && t.pending && t.remaining == 0 && t.savedWork == None
    ensures t.phase == Work ==>
      Tick(t, s) == t.(phase := BreakPhase(s), remaining := BreakSeconds(s), total := BreakSeconds(s),
                       log := t.log + [WORK_FINISHED])
    ensures t.phase == EyeBreak || t.phase == HandBreak ==>
      Tick(t, s) == t.(phase := Idle, pending := false, log := t.log + [BREAK_FINISHED])
  {
  }

  /**
    Combined-mode work: when the eye cadence runs out with work time left,
    the tick parks the work countdown and starts an eye break.
   */
  lemma InlineEyeBreakStarts(t: Timer, s: Settings)
    requires Inv(t) && t.pending && t.phase == Work && s.mode == Combined
    requires t.eyeDue <= 1 && t.remaining > 1
    ensures var r := Tick(t, s);
      && r.phase == EyeBreak && r.pending
      && r.remaining == r.total == s.eyeBreakSec
      && r.savedWork == Some(t.remaining - 1) && r.backupWork == t.savedWork
      && r.eyeDue == 0 && r.log == t.log
  {
  }

  /**
    The completion of an inline eye break returns to work with the parked
    countdown, re-arms the cadence and reinstates the backup handler. It
    fires at the next completion whatever the phase is.
   */
  lemma PatchedCompletion(t: Timer, s: Settings, w: int)
    requires t.remaining == 0 && t.phase != Paused && t.savedWork == Some(w)
    ensures Tick(t, s) == t.(phase := Work, pending := true, remaining := w, total := Max(t.total, w),
                             eyeDue := s.eyeWorkMin * 60, savedWork := t.backupWork,
                             log := t.log + [EYE_BREAK_OVER])
  {
  }

  /**
    A handler installed while another temporary handler was still in place
    becomes its own backup's successor: once both have fired, the older one
    is installed again and stays installed, its own backup being itself.
   */
  lemma StaleHandlerReinstallsItself(t: Timer, s: Settings, w: int)
    requires t.remaining == 0 && t.phase != Paused
    requires t.savedWork == Some(w) && t.backupWork == Some(w)
    ensures var r := Tick(t, s);
      && r.savedWork == Some(w) && r.backupWork == Some(w) && r.remaining == w && r.phase == Work
  {
  }

  // ----- on_pause_resume -----

  /**
    The toggle pauses a running phase, cancelling its callback; the next
    toggle restores the same phase with its countdown untouched and
    schedules a callback again.
   */
  lemma PauseResumeRoundTrip(t: Timer)
    requires Inv(t) && t.phase.Active()
    ensures var p := OnPauseResume(t);
      && p.phase == Paused && !p.pending && p.prevPhase == Some(t.phase)
      && p.remaining == t.remaining && p.total == t.total && p.eyeDue == t.eyeDue
      && OnPauseResume(p) == t.(prevPhase := Some(t.phase))
  {
  }

  /** The toggle does nothing to an idle timer. */
  lemma PauseResumeWhenIdle(t: Timer)
    requires t.phase == Idle
    ensures OnPauseResume(t) == t
  {
  }

  // ----- on_stop -----

  /**
    on_stop from any phase leaves the timer idle with no callback
    scheduled; it clears nothing else, the temporary handler included.
   */
  lemma OnStopSpec(t: Timer)
    ensures OnStop(t) == t.(phase := Idle, pending := false)
    ensures Inv(t) ==> Inv(OnStop(t))
  {
  }

  /** Once stopped, the clock delivers nothing, so later ticks cannot touch the timer. */
  lemma StopThenFireIsIgnored(m: Machine)
    ensures var stopped := Step(m, Stop, false);
      Step(stopped, Fire, false) == stopped
  {
  }

  // ----- the invariant over every run -----

  lemma StepPreservesInv(m: Machine, e: Event, restoreOnStop: bool)
    requires Inv(m.timer) && ValidSettings(m.settings) && ValidEvent(e)
    ensures Inv(Step(m, e, restoreOnStop).timer) && ValidSettings(Step(m, e, restoreOnStop).settings)
  {
  }

  /** `0 <= remaining <= total` and the rest of Inv hold after every sequence of driver events. */
  lemma {:induction false} RunPreservesInv(m: Machine, events: seq<Event>, restoreOnStop: bool)
    requires Inv(m.timer) && ValidSettings(m.settings)
    requires forall i :: 0 <= i < |events| ==> ValidEvent(events[i])
    ensures Inv(Run(m, events, restoreOnStop).timer) && ValidSettings(Run(m, events, restoreOnStop).settings)
    decreases |events|
  {
    if events != [] {
      StepPreservesInv(m, events[0], restoreOnStop);
      RunPreservesInv(Step(m, events[0], restoreOnStop), events[1..], restoreOnStop);
    }
  }

  // ----- countdowns -----

  /** Outside combined-mode work, each of n ticks removes one second while time is left. */
  lemma {:induction false} Countdown(t: Timer, s: Settings, n: nat)
    requires t.phase.Active() && t.pending && !(t.phase == Work && s.mode == Combined)
    requires n <= t.remaining
    ensures Ticks(t, s, n) == t.(remaining := t.remaining - n)
  {
    if n > 0 {
      Countdown(t, s, n - 1);
    }
  }

  /** Combined-mode work before the eye cadence runs out: remaining and the cadence fall together. */
  lemma {:induction false} CombinedCountdown(t: Timer, s: Settings, n: nat)
    requires t.phase == Work && t.pending && s.mode == Combined
    requires n < t.eyeDue && n <= t.remaining
    ensures Ticks(t, s, n) == t.(remaining := t.remaining - n, eyeDue := t.eyeDue - n)
  {
    if n > 0 {
      CombinedCountdown(t, s, n - 1);
    }
  }

  /**
    A phase of N seconds ends on its (N+1)-th tick. A cycle in eye or hand
    mode: work, then the mode's break, then idle with nothing scheduled,
    with exactly two notifications.
   */
  lemma SingleModeCycle(t: Timer, s: Settings)
    requires t.phase == Idle && t.savedWork == None
    requires s.mode == Eye || s.mode == Hand
    requires ValidSettings(s)
    ensures var w := OnStart(t, s);
      var b := Ticks(w, s, WorkSeconds(s) + 1);
      var f := Ticks(b, s, BreakSeconds(s) + 1);
      && w.phase == Work && w.remaining == w.total == WorkSeconds(s)
      && Ticks(w, s, WorkSeconds(s)).phase == Work
      && b.phase == BreakPhase(s) && b.remaining == b.total == BreakSeconds(s)
      && b.log == t.log + [WORK_FINISHED]
      && Ticks(b, s, BreakSeconds(s)).phase == BreakPhase(s)
      && f.phase == Idle && !f.pending
      && f.log == t.log + [WORK_FINISHED, BREAK_FINISHED]
  {
    var w := OnStart(t, s);
    Countdown(w, s, WorkSeconds(s));
    var b := Ticks(w, s, WorkSeconds(s) + 1);
    Countdown(b, s, BreakSeconds(s));
  }

  /**
    Combined mode: after eye.work_min * 60 ticks of work an eye break of
    eye.break_sec seconds starts with the rest of the work parked; its
    completion returns to work with exactly that remaining time, the
    cadence re-armed, and one "Eye break" notification.
   */
  lemma CombinedMicroBreak(t: Timer, s: Settings)
    requires t.phase == Idle && s.mode == Combined && ValidSettings(s)
    requires s.eyeWorkMin < s.handWorkMin
    ensures var eyeWork, handWork := s.eyeWorkMin * 60, s.handWorkMin * 60;
      var w := OnStart(t, s);
      var b := Ticks(w, s, eyeWork);
      var r := Ticks(b, s, s.eyeBreakSec + 1);
      && w.phase == Work && w.remaining == w.total == handWork && w.eyeDue == eyeWork
      && b.phase == EyeBreak && b.pending && b.remaining == b.total == s.eyeBreakSec
      && b.savedWork == Some(handWork - eyeWork) && b.backupWork == t.savedWork
      && b.log == t.log
      && r.phase == Work && r.pending
      && r.remaining == handWork - eyeWork && r.total == Max(s.eyeBreakSec, handWork - eyeWork)
      && r.eyeDue == eyeWork && r.savedWork == t.savedWork
      && r.log == t.log + [EYE_BREAK_OVER]
  {
    var eyeWork := s.eyeWorkMin * 60;
    var w := OnStart(t, s);
    CombinedCountdown(w, s, eyeWork - 1);
    var b := Ticks(w, s, eyeWork);
    Countdown(b, s, s.eyeBreakSec);
  }

  // ----- the temporary handler outliving its eye break -----

  /**
    As written: Stop during an inline eye break leaves the temporary handler
    installed. Start the next cycle in eye mode and its work phase, on
    completion, goes back to work with the parked combined-mode remainder
    and notifies "Eye break", instead of starting the eye break the table
    prescribes.
   */
  lemma StaleHandlerAfterStop(s: Settings)
    requires ValidSettings(s) && s.mode == Combined && s.eyeWorkMin < s.handWorkMin
    ensures var eyeWork, handWork := s.eyeWorkMin * 60, s.handWorkMin * 60;
      var inBreak := Ticks(OnStart(Initial(), s), s, eyeWork);
      var stopped := OnStop(inBreak);
      var eyeMode := s.(mode := Eye);
      var work := OnStart(stopped, eyeMode);
      var done := Ticks(work, eyeMode, eyeWork + 1);
      && stopped.phase == Idle && stopped.savedWork == Some(handWork - eyeWork)
      && work.phase == Work && work.remaining == eyeWork
      && TableNextPhase(Ticks(work, eyeMode, eyeWork), eyeMode).phase == EyeBreak
      && done.phase == Work && done.remaining == handWork - eyeWork
      && done.log == [EYE_BREAK_OVER]
  {
    var eyeWork := s.eyeWorkMin * 60;
    CombinedMicroBreak(Initial(), s);
    var inBreak := Ticks(OnStart(Initial(), s), s, eyeWork);
    var eyeMode := s.(mode := Eye);
    var work := OnStart(OnStop(inBreak), eyeMode);
    Countdown(work, eyeMode, eyeWork);
  }

  /**
    What a temporary handler should satisfy: none is backed up, and one is
    installed only during the inline eye break it belongs to (running or paused).
   */
  predicate HandlerConfined(t: Timer) {
    && t.backupWork == None
    && (t.savedWork.Some? ==> t.phase == EyeBreak || (t.phase == Paused && t.prevPhase == Some(EyeBreak)))
  }

  lemma StepConfinesHandler(m: Machine, e: Event)
    requires HandlerConfined(m.timer)
    ensures HandlerConfined(Step(m, e, true).timer)
  {
  }

  /** With the corrected Stop, every run keeps temporary handlers confined to their eye break. */
  lemma {:induction false} RunConfinesHandler(m: Machine, events: seq<Event>)
    requires HandlerConfined(m.timer)
    ensures HandlerConfined(Run(m, events, true).timer)
    decreases |events|
  {
    if events != [] {
      StepConfinesHandler(m, events[0]);
      RunConfinesHandler(Step(m, events[0], true), events[1..]);
    }
  }

  /**
    Corrected: after any run from the start-up state, a work phase that
    completes follows the completion table.
   */
  lemma CorrectedWorkCompletionFollowsTable(events: seq<Event>, settings: Settings)
    ensures var m := Run(Machine(Initial(), settings), events, true);
      m.timer.phase == Work ==> NextPhase(m.timer, m.settings) == TableNextPhase(m.timer, m.settings)
  {
    RunConfinesHandler(Machine(Initial(), settings), events);
  }
}
