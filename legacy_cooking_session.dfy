/** The full-screen cooking mode of iCooking (`StepFullScreenView`): its timer (`TimerView`)
    and its navigation buttons (`StepNavigationButtons`). The timer ticks the same way as
    Culinex's, but its play button only toggles, and the navigation is not clamped. */
module LegacyCookingSession {
  import opened SwiftNum
  import opened Clock
  import opened LegacyStepTimes
  import StepTimes
  import CookingSession

  /** `computeTotalSeconds()` (both copies in the file are the same). */
  function ComputeTotalSeconds(d: StepTime): (n: int)
    ensures n == CookingSession.ComputeTotalSeconds(StepTimes.StepTime(d.value, Current(d.unit)))
    ensures d.value >= 0.0 ==> 0 <= n
  {
    match d.unit
    case Hr => Trunc(d.value * 3600.0)
    case Min => Trunc(d.value * 60.0)
    case Sec => Trunc(d.value)
  }

  /** `formattedTime`: the components add up to the remaining time. */
  function FormattedTime(remaining: int): (c: HMS)
    ensures Seconds(c) == remaining
    ensures 0 <= remaining ==> 0 <= c.m < 60 && 0 <= c.s < 60
  {
    Split(remaining)
  }

  type TimerState = CookingSession.TimerState

  /** What this timer keeps true: it completes only at zero and counts within [0, total].
      Unlike Culinex's, it can be running and completed at once. */
  predicate LegacyTimerValid(t: TimerState, total: int) {
    (t.completed ==> t.remaining == 0)
    && (0 <= total ==> 0 <= t.remaining <= total)
    && (total < 0 ==> t.remaining == total)
  }

  /** The play/pause button: it only toggles running. */
  function PlayState(t: TimerState): TimerState {
    t.(running := !t.running)
  }

  /** `onChange(of: time)`: stopped, not completed, the new total. */
  function TimeChangedState(newTotal: int): TimerState {
    CookingSession.TimerState(false, newTotal, false)
  }

  /** Every handler keeps the timer valid. */
  lemma LegacyHandlersKeepValid(t: TimerState, total: int, newTotal: int)
    requires LegacyTimerValid(t, total)
    ensures LegacyTimerValid(CookingSession.TickState(t), total)
    ensures LegacyTimerValid(PlayState(t), total)
    ensures LegacyTimerValid(CookingSession.ResetState(total), total)
    ensures LegacyTimerValid(TimeChangedState(newTotal), newTotal)
    ensures LegacyTimerValid(CookingSession.DisappearState(t), total)
  {
  }

  /** Pressing play on a completed timer makes it running and completed at once, at zero,
      and the next tick changes nothing; Culinex's play restarts from the full time instead. */
  lemma PlayAfterCompletionSticks(t: TimerState, total: int)
    requires LegacyTimerValid(t, total) && t.completed && !t.running
    ensures PlayState(t) == CookingSession.TimerState(true, 0, true)
    ensures CookingSession.TickState(PlayState(t)) == PlayState(t)
    ensures PlayState(t) != CookingSession.PlayPauseState(t, total)
  {
  }

  class TimerView {
    var time: StepTime
    var isTimerRunning: bool
    var remainingSeconds: int
    var timerCompleted: bool

    function State(): TimerState
      reads this
    {
      CookingSession.TimerState(isTimerRunning, remainingSeconds, timerCompleted)
    }

    function Total(): int
      reads this
    {
      ComputeTotalSeconds(time)
    }

    ghost predicate Valid()
      reads this
    {
      LegacyTimerValid(State(), Total())
    }

    constructor (time: StepTime)
      ensures this.time == time && State() == CookingSession.StartState(Total()) && Valid()
    {
      this.time := time;
      isTimerRunning := false;
      remainingSeconds := ComputeTotalSeconds(time);
      timerCompleted := false;
    }

    method Tick()
      requires Valid()
      modifies this
      ensures time == old(time) && State() == CookingSession.TickState(old(State())) && Valid()
    {
      if !isTimerRunning || remainingSeconds <= 0 {
        return;
      }
      remainingSeconds := remainingSeconds - 1;
      if remainingSeconds <= 0 {
        timerCompleted := true;
        isTimerRunning := false;
      }
    }

    method Reset()
      requires Valid()
      modifies this
      ensures time == old(time) && State() == CookingSession.ResetState(Total()) && Valid()
    {
      isTimerRunning := false;
      timerCompleted := false;
      remainingSeconds := ComputeTotalSeconds(time);
    }

    method Play()
      requires Valid()
      modifies this
      ensures time == old(time) && State() == PlayState(old(State())) && Valid()
    {
      isTimerRunning := !isTimerRunning;
    }

    method OnTimeChange(newTime: StepTime)
      modifies this
      ensures time == newTime && State() == TimeChangedState(Total()) && Valid()
    {
      time := newTime;
      isTimerRunning := false;
      timerCompleted := false;
      remainingSeconds := ComputeTotalSeconds(newTime);
    }

    /** `onDisappear`: leaving the screen stops the timer and keeps the time shown. */
    method Disappear()
      requires Valid()
      modifies this
      ensures time == old(time) && State() == CookingSession.DisappearState(old(State())) && Valid()
    {
      isTimerRunning := false;
    }
  }

  /** A one-second timer run down and then played again is running and completed at once. */
  method PlayAfterCompletion(time: StepTime) returns (after: TimerState)
    requires ComputeTotalSeconds(time) == 1
    ensures after.running && after.completed && after.remaining == 0
  {
    var timer := new TimerView(time);
    timer.Play();
    timer.Tick();
    timer.Play();
    after := timer.State();
  }

  // ---------------------------------------------------------------------------------------
  // Navigation

  datatype NavState = NavState(current: int, dismissed: bool)

  /** "Previous": disabled on the first step; otherwise exactly one back. */
  function PreviousState(n: NavState): NavState {
    if n.current == 0 then n else n.(current := n.current - 1)
  }

  /** "Next": dismisses on the last step and keeps the index; otherwise exactly one on. */
  function NextState(n: NavState, total: int): NavState {
    if n.current == total - 1 then n.(dismissed := true) else n.(current := n.current + 1)
  }

  /** Without clamping the index still stays on a step when it starts on one, and the moves
      agree with Culinex's clamped ones there. */
  lemma MatchesClampedInRange(n: NavState, total: int, preview: bool)
    requires 1 <= total && 0 <= n.current < total
    ensures 0 <= PreviousState(n).current < total && 0 <= NextState(n, total).current < total
    ensures PreviousState(n).current
            == CookingSession.PreviousState(CookingSession.NavState(n.current, preview, n.dismissed)).current
    ensures NextState(n, total)
            == var c := CookingSession.NextState(CookingSession.NavState(n.current, preview, n.dismissed), total);
               NavState(c.current, c.dismissed)
  {
  }

  /** From an index outside the steps the moves are plain +1 and -1: with no steps, "Next"
      goes to 1 where Culinex goes to -1. Neither screen reaches this: with no steps, its first
      render already reads `steps[0]` and traps. */
  lemma UnclampedOutOfRange()
    ensures NextState(NavState(0, false), 0) == NavState(1, false)
    ensures CookingSession.NextState(CookingSession.NavState(0, false, false), 0).current == -1
    ensures PreviousState(NavState(-1, false)) == NavState(-2, false)
  {
  }

  class StepNavigationButtons {
    const totalSteps: int
    var currentStep: int
    var dismissed: bool

    function State(): NavState
      reads this
    {
      NavState(currentStep, dismissed)
    }

    constructor (totalSteps: int)
      ensures this.totalSteps == totalSteps && State() == NavState(0, false)
    {
      this.totalSteps := totalSteps;
      currentStep := 0;
      dismissed := false;
    }

    method Previous()
      modifies this
      ensures State() == PreviousState(old(State()))
    {
      if currentStep == 0 { return; }
      currentStep := currentStep - 1;
    }

    method Next()
      modifies this
      ensures State() == NextState(old(State()), totalSteps)
    {
      if currentStep == totalSteps - 1 {
        dismissed := true;
      } else {
        currentStep := currentStep + 1;
      }
    }

    /** The "Exit" toolbar button dismisses the screen and changes nothing else. */
    method TapExit()
      modifies this
      ensures State() == old(State()).(dismissed := true)
    {
      dismissed := true;
    }
  }
}
