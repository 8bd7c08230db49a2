/** The older iCooking `StepTime` and `UnitOfTime`: the same three cases and the same
    `toString(value:)`. */
module LegacyStepTimes {
  import StepTimes

  datatype UnitOfTime = Hr | Min | Sec

  datatype StepTime = StepTime(value: real, unit: UnitOfTime)

  /** `unit.toString(value:)` of the older app. */
  function ToString(unit: UnitOfTime, value: real): (r: string)
    ensures value == 1.0 <==> r in {"hour", "minute", "second"}
    ensures unit == Hr ==> r in {"hour", "hours"}
    ensures unit == Min ==> r in {"minute", "minutes"}
    ensures unit == Sec ==> r in {"second", "seconds"}
  {
    match unit
    case Hr => if value == 1.0 then "hour" else "hours"
    case Min => if value == 1.0 then "minute" else "minutes"
    case Sec => if value == 1.0 then "second" else "seconds"
  }

  function Current(unit: UnitOfTime): StepTimes.UnitOfTime {
    match unit
    case Hr => StepTimes.Hr
    case Min => StepTimes.Min
    case Sec => StepTimes.Sec
  }

  /** The two generations write the same words for every unit and value. */
  lemma SameAsCurrent(unit: UnitOfTime, value: real)
    ensures ToString(unit, value) == StepTimes.ToString(Current(unit), value)
  {
  }

  /** Zero, a half and two are all plural. */
  lemma NonOneIsPlural(unit: UnitOfTime)
    ensures ToString(unit, 0.0) == ToString(unit, 2.0) == ToString(unit, 0.5)
    ensures ToString(unit, 0.0) != ToString(unit, 1.0)
  {
  }
}
