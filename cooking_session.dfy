/** The full-screen cooking mode of Culinex (`StepFullScreenView`): which step is shown, the
    countdown timer of the step (`TimerDashboardView`) and the step navigation buttons
    (`StepNavigationControls`).

    The clock is left out: each one-second tick of the timer is a call of `Tick`. The
    "%02d:%02d:%02d" text of the remaining time is given as its three components. */
module CookingSession {
  import opened Wrappers
  import opened SwiftNum
  import opened Clock
  import opened StepTimes
  import opened RecipeSteps

  /** `computeTotalSeconds()`: `Int(value * 3600)`, `Int(value * 60)` or `Int(value)` by unit. */
  function ComputeTotalSeconds(d: StepTime): (n: int)
    ensures n == Trunc(DurationInSeconds(d))
    ensures d.value >= 0.0 ==> 0 <= n
    ensures d.value >= 0.0 ==> n as real <= DurationInSeconds(d) < n as real + 1.0
  {
    match d.unit
    case Hr => Trunc(d.value * 3600.0)
    case Min => Trunc(d.value * 60.0)
    case Sec => Trunc(d.value)
  }

  /** `currentStep`: the step at the index, or a placeholder when the index is out of range.
      `placeholderId` is the identity of the placeholder object. The screen's body never reads
      this property: it indexes `steps` directly, so the placeholder is never shown. */
  function CurrentStep(steps: seq<RecipeStep>, index: int, placeholderId: nat): (r: RecipeStep)
    ensures 0 <= index < |steps| ==> r == steps[index]
    ensures !(0 <= index < |steps|) ==>
      r.descrip == "No step data available." && r.duration == StepTime(0.0, Min)
      && r.skills == [] && r.stepIngredients == [] && r.tools == Some([])
  {
    if steps != [] && 0 <= index < |steps| then steps[index]
    else RecipeStep(placeholderId, 0, "No step data available.", Some([]), StepTime(0.0, Min), [], [])
  }

  /** `isLastStep`. */
  function IsLastStep(index: int, count: int): (r: bool)
    ensures r <==> index == count - 1
  {
    index == count - 1
  }

  /** The placeholder has a zero duration: zero seconds and a zero time interval. */
  lemma PlaceholderTakesNoTime(steps: seq<RecipeStep>, index: int, placeholderId: nat)
    requires !(0 <= index < |steps|)
    ensures ComputeTotalSeconds(CurrentStep(steps, index, placeholderId).duration) == 0
    ensures GetTimeInterval(CurrentStep(steps, index, placeholderId)) == 0.0
  {
  }

  // ---------------------------------------------------------------------------------------
  // The timer

  /** `formattedTime`: the hours, minutes and seconds of the remaining time. */
  function FormattedTime(remaining: int): (c: HMS)
    ensures Seconds(c) == remaining
    ensures 0 <= remaining ==> 0 <= c.h && 0 <= c.m < 60 && 0 <= c.s < 60
  {
    Split(remaining)
  }

  /** `timerProgress`: the elapsed fraction of the total, clamped to [0, 1]; 0 for a zero total. */
  function TimerProgress(total: int, remaining: int): (p: real)
    ensures 0.0 <= p <= 1.0
    ensures total == 0 ==> p == 0.0
    ensures 0 < total && 0 <= remaining <= total ==>
      p == (total - remaining) as real / total as real
  {
    if total == 0 then 0.0
    else
      var x := (total as real - remaining as real) / total as real;
      var clamped := if 1.0 < x then 1.0 else x;
      if 0.0 < clamped then clamped else 0.0
  }

  /** The three `@State` fields of the timer. */
  datatype TimerState = TimerState(running: bool, remaining: int, completed: bool)

  /** What the timer keeps true for a total of `total` seconds: it is never running and
      completed at once, it completes only at zero, and it counts within [0, total] (a
      negative total is shown as it is and never counts down). */
  predicate TimerValid(t: TimerState, total: int) {
    !(t.running && t.completed)
    && (t.completed ==> t.remaining == 0)
    && (0 <= total ==> 0 <= t.remaining <= total)
    && (total < 0 ==> t.remaining == total)
  }

  /** `init(time:)`: the full time, stopped. */
  function StartState(total: int): TimerState {
    TimerState(false, total, false)
  }

  /** The tick handler: nothing unless running with time left; otherwise one second less,
      and at zero the timer completes and stops. */
  function TickState(t: TimerState): TimerState {
    if !t.running || t.remaining <= 0 then t
    else
      var r := t.remaining - 1;
      if r <= 0 then TimerState(false, r, true) else t.(remaining := r)
  }

  /** The reset button: stopped, not completed, full time. */
  function ResetState(total: int): TimerState {
    TimerState(false, total, false)
  }

  /** The play/pause button: after completion it restarts from the full time; otherwise it
      toggles running. */
  function PlayPauseState(t: TimerState, total: int): TimerState {
    if t.completed then TimerState(true, total, false) else t.(running := !t.running)
  }

  /** Leaving the screen stops the timer. */
  function DisappearState(t: TimerState): TimerState {
    t.(running := false)
  }

  /** Every handler keeps the timer valid. */
  lemma TimerHandlersKeepValid(t: TimerState, total: int)
    requires TimerValid(t, total)
    ensures TimerValid(StartState(total), total) && TimerValid(ResetState(total), total)
    ensures TimerValid(TickState(t), total)
    ensures TimerValid(PlayPauseState(t, total), total)
    ensures TimerValid(DisappearState(t), total)
  {
  }

  /** `n` ticks in a row. */
  function Ticks(t: TimerState, n: nat): TimerState
    decreases n
  {
    if n == 0 then t else Ticks(TickState(t), n - 1)
  }

  /** A running timer with `n` seconds left completes after exactly `n` ticks, and keeps
      running, one second less each tick, until then. */
  lemma {:induction false} RunsDownInTicks(t: TimerState, n: nat, k: nat)
    requires t.running && !t.completed && t.remaining == n && 0 < n
    requires k <= n
    ensures Ticks(t, k) == if k == n then TimerState(false, 0, true) else t.(remaining := n - k)
    decreases k
  {
    if k > 0 {
      if n == 1 {
        assert TickState(t) == TimerState(false, 0, true);
      } else {
        var t' := TickState(t);
        assert t' == t.(remaining := n - 1);
        RunsDownInTicks(t', n - 1, k - 1);
      }
    }
  }

  /** Once completed, ticks change nothing until a button is pressed. */
  lemma {:induction false} CompletedIsIdle(t: TimerState, k: nat)
    requires !t.running
    ensures Ticks(t, k) == t
    decreases k
  {
    if k > 0 { CompletedIsIdle(t, k - 1); }
  }

  /** The timer of one step (`TimerDashboardView`). */
  class TimerDashboard {
    const time: StepTime
    var isTimerRunning: bool
    var remainingSeconds: int
    var timerCompleted: bool

    function State(): TimerState
      reads this
    {
      TimerState(isTimerRunning, remainingSeconds, timerCompleted)
    }

    function Total(): int {
      ComputeTotalSeconds(time)
    }

    ghost predicate Valid()
      reads this
    {
      TimerValid(State(), Total())
    }

    constructor (time: StepTime)
      ensures this.time == time && State() == StartState(Total()) && Valid()
    {
      this.time := time;
      isTimerRunning := false;
      remainingSeconds := ComputeTotalSeconds(time);
      timerCompleted := false;
    }

    method Tick()
      requires Valid()
      modifies this
      ensures State() == TickState(old(State())) && Valid()
    {
      if !isTimerRunning || remainingSeconds <= 0 {
        return;
      }
      remainingSeconds := remainingSeconds - 1;
      if remainingSeconds <= 0 {
        timerCompleted := true;
        isTimerRunning := false;
      }
    }

    method Reset()
      requires Valid()
      modifies this
      ensures State() == ResetState(Total()) && Valid()
    {
      isTimerRunning := false;
      timerCompleted := false;
      remainingSeconds := ComputeTotalSeconds(time);
    }

    method PlayPause()
      requires Valid()
      modifies this
      ensures State() == PlayPauseState(old(State()), Total()) && Valid()
    {
      if timerCompleted {
        timerCompleted := false;
        remainingSeconds := ComputeTotalSeconds(time);
        isTimerRunning := true;
      } else {
        isTimerRunning := !isTimerRunning;
      }
    }

    method Disappear()
      requires Valid()
      modifies this
      ensures State() == DisappearState(old(State())) && Valid()
    {
      isTimerRunning := false;
    }
  }

  /** A positive timer run down to completion and started again counts from the full time. */
  method ReplayAfterCompletion(time: StepTime) returns (before: TimerState, after: TimerState)
    requires ComputeTotalSeconds(time) == 1
    ensures before == TimerState(false, 0, true)
    ensures after == TimerState(true, 1, false)
  {
    var timer := new TimerDashboard(time);
    timer.PlayPause();
    timer.Tick();
    before := timer.State();
    timer.PlayPause();
    after := timer.State();
  }

  // ---------------------------------------------------------------------------------------
  // Navigation

  /** The navigation state: the step index, whether the next-step preview is shown, and
      whether the screen was dismissed. */
  datatype NavState = NavState(current: int, preview: bool, dismissed: bool)

  /** "Previous": disabled on the first step; otherwise closes the preview and moves back one,
      never below 0. */
  function PreviousState(n: NavState): NavState {
    if n.current == 0 then n
    else n.(preview := false, current := if n.current - 1 < 0 then 0 else n.current - 1)
  }

  /** "Next": on the last step it dismisses; otherwise it closes the preview and moves on one,
      never past the last step. */
  function NextState(n: NavState, total: int): NavState {
    if IsLastStep(n.current, total) then n.(dismissed := true)
    else n.(preview := false, current := if total - 1 < n.current + 1 then total - 1 else n.current + 1)
  }

  /** "Preview Next", shown only when this is not the last step. */
  function TogglePreviewState(n: NavState, total: int): NavState {
    if IsLastStep(n.current, total) then n else n.(preview := !n.preview)
  }

  /** With at least one step, the buttons keep the index on a step, and each move closes the
      preview. */
  lemma NavigationStaysInRange(n: NavState, total: int)
    requires 1 <= total && 0 <= n.current < total
    ensures 0 <= PreviousState(n).current < total
    ensures 0 <= NextState(n, total).current < total
    ensures 0 <= TogglePreviewState(n, total).current < total
    ensures n.current > 0 ==> PreviousState(n) == NavState(n.current - 1, false, n.dismissed)
    ensures n.current < total - 1 ==> NextState(n, total) == NavState(n.current + 1, false, n.dismissed)
    ensures n.current == total - 1 ==> NextState(n, total) == n.(dismissed := true)
  {
  }

  /** With no steps at all, the clamp of "Next" gives the index -1. The screen cannot reach
      this: with no steps, its first render already reads `steps[0]` and traps. */
  lemma NextWithoutSteps(n: NavState)
    requires n.current == 0
    ensures NextState(n, 0).current == -1
  {
  }

  class StepNavigation {
    const totalSteps: int
    var currentStep: int
    var showingNextStepPreview: bool
    var dismissed: bool

    function State(): NavState
      reads this
    {
      NavState(currentStep, showingNextStepPreview, dismissed)
    }

    /** The screen opens on the first step without the preview. */
    constructor (totalSteps: int)
      ensures this.totalSteps == totalSteps && State() == NavState(0, false, false)
    {
      this.totalSteps := totalSteps;
      currentStep := 0;
      showingNextStepPreview := false;
      dismissed := false;
    }

    method Previous()
      modifies this
      ensures State() == PreviousState(old(State()))
    {
      if currentStep == 0 { return; }
      showingNextStepPreview := false;
      currentStep := if currentStep - 1 < 0 then 0 else currentStep - 1;
    }

    method Next()
      modifies this
      ensures State() == NextState(old(State()), totalSteps)
    {
      if currentStep == totalSteps - 1 {
        dismissed := true;
      } else {
        showingNextStepPreview := false;
        currentStep := if totalSteps - 1 < currentStep + 1 then totalSteps - 1 else currentStep + 1;
      }
    }

    /** The "Exit" button dismisses the screen and changes nothing else. */
    method TapExit()
      modifies this
      ensures State() == old(State()).(dismissed := true)
    {
      dismissed := true;
    }

    method TogglePreview()
      modifies this
      ensures State() == TogglePreviewState(old(State()), totalSteps)
    {
      if currentStep != totalSteps - 1 {
        showingNextStepPreview := !showingNextStepPreview;
      }
    }
  }
}
