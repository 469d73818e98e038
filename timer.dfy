/**
  The timer of work_rest.py as an object: its fields are the module
  globals and the CONFIG entries the timer reads, its methods the timer
  functions, each proved to produce the state PhaseMachine prescribes.
 */
module TimerObject {
  import opened Wrappers
  import opened Config
  import opened PhaseMachine
  import opened PhaseProperties

  class WorkRestTimer {
    var phase: Phase
    var remaining: int
    var phaseTotal: int
    var combinedEyeDue: int
    var prevPhase: Option<Phase>
    var tickPending: bool
    var savedWork: Option<int>
    var backupWork: Option<int>
    ghost var notifications: seq<string>

    var mode: Mode
    var eyeWorkMin: int
    var eyeBreakSec: int
    var handWorkMin: int
    var handBreakMin: int

    /** The globals as a PhaseMachine timer. */
    ghost function State(): Timer
      reads this
    {
      Timer(phase, remaining, phaseTotal, combinedEyeDue, prevPhase, tickPending,
            savedWork, backupWork, notifications)
    }

    /** The CONFIG entries the timer reads. */
    function Current(): Settings
      reads this
    {
      Settings(mode, eyeWorkMin, eyeBreakSec, handWorkMin, handBreakMin)
    }

    ghost predicate Valid()
      reads this
    {
      Inv(State()) && ValidSettings(Current())
    }

    /** The globals at start-up, with the loaded settings. */
    constructor (settings: Settings)
      requires ValidSettings(settings)
      ensures Valid() && State() == Initial() && Current() == settings
    {
      phase, remaining, phaseTotal, combinedEyeDue := Idle, 0, 0, 0;
      prevPhase, tickPending, savedWork, backupWork := None, false, None, None;
      notifications := [];
      mode := settings.mode;
      eyeWorkMin, eyeBreakSec := settings.eyeWorkMin, settings.eyeBreakSec;
      handWorkMin, handBreakMin := settings.handWorkMin, settings.handBreakMin;
    }

    /** A radio button: CONFIG["mode"] changes, at any time. */
    method SelectMode(m: Mode)
      modifies this
      ensures State() == old(State()) && Current() == old(Current()).(mode := m)
    {
      mode := m;
    }

    /** The Save button of the settings dialog. */
    method Configure(ew: int, eb: int, hw: int, hb: int)
      requires ValidSettings(Settings(mode, ew, eb, hw, hb))
      modifies this
      ensures State() == old(State()) && Current() == Settings(old(mode), ew, eb, hw, hb)
    {
      eyeWorkMin, eyeBreakSec, handWorkMin, handBreakMin := ew, eb, hw, hb;
    }

    method ScheduleTick()
      modifies this
      ensures State() == PhaseMachine.ScheduleTick(old(State())) && Current() == old(Current())
    {
      tickPending := true;
    }

    method CancelTick()
      modifies this
      ensures State() == PhaseMachine.CancelTick(old(State())) && Current() == old(Current())
    {
      tickPending := false;
    }

    method Notify(title: string)
      modifies this
      ensures State() == PhaseMachine.Notify(old(State()), title) && Current() == old(Current())
    {
      notifications := notifications + [title];
    }

    method StartCountdown(seconds: int)
      modifies this
      ensures State() == PhaseMachine.StartCountdown(old(State()), seconds) && Current() == old(Current())
    {
      remaining := seconds;
      phaseTotal := seconds;
      ScheduleTick();
    }

    method FinishCycle()
      modifies this
      ensures State() == PhaseMachine.FinishCycle(old(State())) && Current() == old(Current())
    {
      phase := Idle;
      CancelTick();
    }

    method BeginWork()
      modifies this
      ensures State() == PhaseMachine.BeginWork(old(State()), old(Current())) && Current() == old(Current())
    {
      match mode
      case Eye =>
        phase := Work;
        StartCountdown(eyeWorkMin * 60);
      case Hand =>
        phase := Work;
        StartCountdown(handWorkMin * 60);
      case _ =>
        phase := Work;
        combinedEyeDue := eyeWorkMin * 60;
        StartCountdown(handWorkMin * 60);
    }

    method BeginEyeBreak(seconds: int)
      modifies this
      ensures State() == PhaseMachine.BeginEyeBreak(old(State()), seconds) && Current() == old(Current())
    {
      phase := EyeBreak;
      StartCountdown(seconds);
    }

    method BeginHandBreak(seconds: int)
      modifies this
      ensures State() == PhaseMachine.BeginHandBreak(old(State()), seconds) && Current() == old(Current())
    {
      phase := HandBreak;
      StartCountdown(seconds);
    }

    /** Installs the temporary completion handler that will bring the work back. */
    method StartEyeBreakInline()
      modifies this
      ensures State() == PhaseMachine.StartEyeBreakInline(old(State()), old(Current()))
      ensures Current() == old(Current())
    {
      CancelTick();
      var pausedRemaining := remaining;
      phase := EyeBreak;
      var eyeLen := eyeBreakSec;
      remaining := eyeLen;
      phaseTotal := eyeLen;
      ScheduleTick();
      backupWork := savedWork;
      savedWork := Some(pausedRemaining);
    }

    method BackToWork(pausedRemaining: int)
      modifies this
      ensures State() == PhaseMachine.BackToWork(old(State()), pausedRemaining, old(Current()))
      ensures Current() == old(Current())
    {
      phase := Work;
      remaining := pausedRemaining;
      phaseTotal := Max(phaseTotal, pausedRemaining);
      combinedEyeDue := eyeWorkMin * 60;
      ScheduleTick();
    }

    /** Calls whichever completion handler is installed. */
    method NextPhase()
      modifies this
      ensures State() == PhaseMachine.NextPhase(old(State()), old(Current())) && Current() == old(Current())
    {
      match savedWork
      case Some(pausedRemaining) =>
        savedWork := backupWork;
        Notify(EYE_BREAK_OVER);
        BackToWork(pausedRemaining);
      case None =>
        if phase == Work {
          Notify(WORK_FINISHED);
          if mode == Eye {
            BeginEyeBreak(eyeBreakSec);
          } else {
            BeginHandBreak(handBreakMin * 60);
          }
        } else if phase == EyeBreak || phase == HandBreak {
          Notify(BREAK_FINISHED);
          FinishCycle();
        }
    }

    /** The scheduled callback fires. */
    method Tick()
      requires Valid() && tickPending
      modifies this
      ensures Valid()
      ensures State() == PhaseMachine.Tick(old(State()), old(Current())) && Current() == old(Current())
    {
      StepPreservesInv(Machine(State(), Current()), Fire, false);
      if phase == Paused {
        return;
      }
      if remaining > 0 {
        remaining := remaining - 1;
        if phase == Work && mode == Combined {
          if combinedEyeDue > 0 {
            combinedEyeDue := combinedEyeDue - 1;
          }
          if combinedEyeDue == 0 && remaining > 0 {
            StartEyeBreakInline();
            return;
          }
        }
        ScheduleTick();
      } else {
        NextPhase();
      }
    }

    method OnStart()
      requires Valid()
      modifies this
      ensures Valid()
      ensures State() == PhaseMachine.OnStart(old(State()), old(Current())) && Current() == old(Current())
    {
      StepPreservesInv(Machine(State(), Current()), Start, false);
      if phase == Idle {
        BeginWork();
      }
    }

    method OnPauseResume()
      requires Valid()
      modifies this
      ensures Valid()
      ensures State() == PhaseMachine.OnPauseResume(old(State())) && Current() == old(Current())
    {
      StepPreservesInv(Machine(State(), Current()), PauseResume, false);
      if phase == Paused {
        phase := prevPhase.GetOr(Work);
        ScheduleTick();
      } else if phase == Work || phase == EyeBreak || phase == HandBreak {
        prevPhase := Some(phase);
        phase := Paused;
        CancelTick();
      }
    }

    method OnStop()
      requires Valid()
      modifies this
      ensures Valid()
      ensures State() == PhaseMachine.OnStop(old(State())) && Current() == old(Current())
    {
      StepPreservesInv(Machine(State(), Current()), Stop, false);
      CancelTick();
      FinishCycle();
    }
  }

  /** A session driven through the object: start, pause, resume and stop behave as the lemmas say. */
  method Session(settings: Settings)
    requires ValidSettings(settings)
  {
    var timer := new WorkRestTimer(settings);
    timer.OnStart();
    assert timer.phase == Work && timer.tickPending;
    timer.Tick();
    var left := timer.remaining;
    timer.OnPauseResume();
    assert timer.phase == Paused && !timer.tickPending;
    timer.OnPauseResume();
    assert timer.phase == Work && timer.remaining == left && timer.tickPending;
    timer.OnStop();
    assert timer.phase == Idle && !timer.tickPending;
  }
}
