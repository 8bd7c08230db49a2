/** A step's duration: a value and a unit of time (Culinex `StepTime` and `UnitOfTime`). */
module StepTimes {

  datatype UnitOfTime = Hr | Min | Sec

  datatype StepTime = StepTime(value: real, unit: UnitOfTime)

  /** The custom `==`: two durations are equal when value and unit both are. It agrees with
      structural equality, so a duration of 1 hour is not equal to one of 60 minutes. */
  function Equals(a: StepTime, b: StepTime): (r: bool)
    ensures r <==> a == b
  {
    a.value == b.value && a.unit == b.unit
  }

  /** The singular English noun for a unit. */
  function Noun(unit: UnitOfTime): string {
    match unit
    case Hr => "hour"
    case Min => "minute"
    case Sec => "second"
  }

  /** `unit.toString(value:)`: the noun, singular exactly when `value == 1`. */
  function ToString(unit: UnitOfTime, value: real): (r: string)
    ensures value == 1.0 ==> r == Noun(unit)
    ensures value != 1.0 ==> r == Noun(unit) + "s"
  {
    match unit
    case Hr => if value == 1.0 then "hour" else "hours"
    case Min => if value == 1.0 then "minute" else "minutes"
    case Sec => if value == 1.0 then "second" else "seconds"
  }

  /** Seconds in one of the unit. */
  function SecondsPer(unit: UnitOfTime): (k: real)
    ensures k > 0.0
  {
    match unit
    case Hr => 3600.0
    case Min => 60.0
    case Sec => 1.0
  }

  /** `durationInSeconds`: the value scaled by the unit's length in seconds. */
  function DurationInSeconds(d: StepTime): (r: real)
    ensures d.unit == Hr ==> r == d.value * 3600.0
    ensures d.unit == Min ==> r == d.value * 60.0
    ensures d.unit == Sec ==> r == d.value
  {
    match d.unit
    case Hr => d.value * 3600.0
    case Min => d.value * 60.0
    case Sec => d.value
  }

  /** The result names the singular noun exactly when the value is one. */
  lemma SingularIff(unit: UnitOfTime, value: real)
    ensures ToString(unit, value) == Noun(unit) <==> value == 1.0
  {
    if value != 1.0 {
      assert |ToString(unit, value)| == |Noun(unit)| + 1;
    }
  }

  /** One hour, sixty minutes and 3600 seconds are the same length of time. */
  lemma OneHourThreeWays()
    ensures DurationInSeconds(StepTime(1.0, Hr)) == 3600.0
    ensures DurationInSeconds(StepTime(60.0, Min)) == 3600.0
    ensures DurationInSeconds(StepTime(3600.0, Sec)) == 3600.0
  {
  }

  /** The conversion is the value times the unit's length, so it is zero at zero and monotone
      in the value for a fixed unit. */
  lemma DurationScales(d: StepTime)
    ensures DurationInSeconds(d) == d.value * SecondsPer(d.unit)
    ensures d.value == 0.0 ==> DurationInSeconds(d) == 0.0
    ensures d.value >= 0.0 ==> DurationInSeconds(d) >= 0.0
  {
  }

  lemma DurationMonotone(unit: UnitOfTime, v: real, w: real)
    requires v <= w
    ensures DurationInSeconds(StepTime(v, unit)) <= DurationInSeconds(StepTime(w, unit))
  {
  }
}
