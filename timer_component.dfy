/** The circular countdown of Culinex's `TimerComponentView`. The remaining time is a bound
    Double owned by the parent view; each one-second tick of the clock is a call of `Tick`. */
module TimerComponent {
  import opened SwiftNum
  import opened Clock

  /** The tick handler: nothing when inactive; otherwise one second less, but only while
      time is left. */
  function TickRemaining(remaining: real, active: bool): (r: real)
    ensures !active || remaining <= 0.0 ==> r == remaining
    ensures active && remaining > 0.0 ==> r == remaining - 1.0
    ensures remaining > 0.0 ==> r > -1.0
  {
    if !active then remaining
    else if remaining > 0.0 then remaining - 1.0
    else remaining
  }

  /** A whole, non-negative number of seconds stays whole and non-negative under ticks. */
  lemma TickKeepsWholeSeconds(n: int, active: bool)
    requires 0 <= n
    ensures 0.0 <= TickRemaining(n as real, active) <= n as real
    ensures TickRemaining(n as real, active).Floor as real == TickRemaining(n as real, active)
  {
    if active && n > 0 {
      assert TickRemaining(n as real, active) == (n - 1) as real;
    } else {
      assert TickRemaining(n as real, active) == n as real;
    }
  }

  /** `progress`: 0 for a non-positive total, otherwise the remaining fraction, floored at 0
      but not capped at 1. */
  function Progress(remaining: real, total: real): (p: real)
    ensures 0.0 <= p
    ensures total <= 0.0 ==> p == 0.0
    ensures 0.0 < total && 0.0 <= remaining ==> p == remaining / total
    ensures 0.0 < total && remaining <= total ==> p <= 1.0
    ensures 0.0 < total && remaining > total ==> p > 1.0
  {
    if !(total > 0.0) then 0.0
    else
      var x := remaining / total;
      if 0.0 < x then x else 0.0
  }

  /** `Int(max(0, t))`: the whole seconds shown, never negative. */
  function ShownSeconds(t: real): (n: int)
    ensures n == Trunc(if 0.0 < t then t else 0.0)
    ensures 0 <= n
    ensures t < 1.0 ==> n == 0
  {
    var x := if 0.0 < t then t else 0.0;
    if x < 1.0 then TruncBelowOne(x); Trunc(x) else Trunc(x)
  }

  /** `timeString(from:)`: the hours, minutes and seconds of `Int(max(0, t))`. */
  function TimeString(t: real): (c: HMS)
    ensures Seconds(c) == ShownSeconds(t)
    ensures 0 <= c.h && 0 <= c.m < 60 && 0 <= c.s < 60
  {
    Split(ShownSeconds(t))
  }

  /** A negative or sub-second time shows as zeros. */
  lemma ShowsZerosBelowOneSecond(t: real)
    requires t < 1.0
    ensures TimeString(t) == HMS(0, 0, 0)
  {
    SplitOfSeconds(HMS(0, 0, 0));
  }

  class TimerComponentView {
    var remainingTime: real
    const totalTime: real
    const isTimerActive: bool

    constructor (remainingTime: real, totalTime: real, isTimerActive: bool)
      ensures this.remainingTime == remainingTime
      ensures this.totalTime == totalTime && this.isTimerActive == isTimerActive
    {
      this.remainingTime := remainingTime;
      this.totalTime := totalTime;
      this.isTimerActive := isTimerActive;
    }

    method Tick()
      modifies this
      ensures remainingTime == TickRemaining(old(remainingTime), isTimerActive)
    {
      if !isTimerActive { return; }
      if remainingTime > 0.0 {
        remainingTime := remainingTime - 1.0;
      }
    }
  }
}
