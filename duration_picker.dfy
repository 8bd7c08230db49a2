/** The hour/minute/second wheels that edit a step's duration (`DurationPickerView` in
    Culinex's SetTimerView.swift): the duration is split into whole hours, minutes and seconds
    when the picker opens, and the wheels are put back together, in seconds, on "Done". */
module DurationPicker {
  import opened SwiftNum
  import opened Clock
  import opened StepTimes

  /** The wheels' starting values: `Int(durationInSeconds)` split with truncating `/` and `%`. */
  function Decompose(d: StepTime): (c: HMS)
    ensures Seconds(c) == Trunc(DurationInSeconds(d))
    ensures DurationInSeconds(d) >= 0.0 ==> 0 <= c.h && 0 <= c.m < 60 && 0 <= c.s < 60
  {
    Split(Trunc(DurationInSeconds(d)))
  }

  /** The duration "Done" stores: the wheels' total, always in seconds. */
  function Recompose(c: HMS): (d: StepTime)
    ensures d.unit == Sec
    ensures DurationInSeconds(d) == (c.h * 3600 + c.m * 60 + c.s) as real
  {
    StepTime(Seconds(c) as real, Sec)
  }

  /** The ranges the wheels offer: 0..<24 hours, 0..<60 minutes and 0..<60 seconds. */
  predicate OnWheels(c: HMS) {
    0 <= c.h < 24 && 0 <= c.m < 60 && 0 <= c.s < 60
  }

  /** Opening the picker on a whole, non-negative number of seconds and pressing "Done"
      without turning a wheel keeps the length of the duration; only the unit becomes
      seconds. */
  lemma {:induction false} OpenThenSaveKeepsLength(d: StepTime, n: int)
    requires 0 <= n && DurationInSeconds(d) == n as real
    ensures Recompose(Decompose(d)).unit == Sec
    ensures DurationInSeconds(Recompose(Decompose(d))) == DurationInSeconds(d)
  {
    TruncOfWhole(n);
  }

  /** Any wheel selection, saved and reopened, shows the same selection again. */
  lemma {:induction false} SaveThenOpenKeepsWheels(c: HMS)
    requires OnWheels(c)
    ensures Decompose(Recompose(c)) == c
  {
    TruncOfWhole(Seconds(c));
    SplitOfSeconds(c);
  }

  /** The view's state: the bound duration, the three wheels, and whether it was dismissed. */
  class Picker {
    var duration: StepTime
    var selectedHours: int
    var selectedMinutes: int
    var selectedSeconds: int
    var dismissed: bool

    function Wheels(): HMS
      reads this
    {
      HMS(selectedHours, selectedMinutes, selectedSeconds)
    }

    /** `init(duration:)`. */
    constructor (duration: StepTime)
      ensures this.duration == duration && !dismissed
      ensures Wheels() == Decompose(duration)
    {
      this.duration := duration;
      var c := Decompose(duration);
      selectedHours := c.h;
      selectedMinutes := c.m;
      selectedSeconds := c.s;
      dismissed := false;
    }

    /** Turning the wheels: each takes a value it offers. */
    method Select(c: HMS)
      requires OnWheels(c)
      modifies this
      ensures Wheels() == c && duration == old(duration) && dismissed == old(dismissed)
    {
      selectedHours, selectedMinutes, selectedSeconds := c.h, c.m, c.s;
    }

    /** `saveAndDismiss()`. */
    method SaveAndDismiss()
      modifies this
      ensures duration == Recompose(old(Wheels())) && dismissed
      ensures Wheels() == old(Wheels())
    {
      var total := selectedHours * 3600 + selectedMinutes * 60 + selectedSeconds;
      duration := StepTime(total as real, Sec);
      dismissed := true;
    }
  }

  /** Opening the picker on a whole number of seconds and saving right away. */
  method OpenAndSave(d: StepTime, ghost n: int) returns (saved: StepTime)
    requires 0 <= n && DurationInSeconds(d) == n as real
    ensures saved.unit == Sec && DurationInSeconds(saved) == DurationInSeconds(d)
  {
    var p := new Picker(d);
    p.SaveAndDismiss();
    saved := p.duration;
    OpenThenSaveKeepsLength(d, n);
  }
}
