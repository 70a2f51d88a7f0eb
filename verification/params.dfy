/** The parameter records that the parsers produce and the pipeline consumes. */
module Params {
  import opened Wrappers
  import opened Numbers

  /** How a one-shot effect clip is extended: a number of plays, a duration,
      or without end. */
  datatype RepeatMode = Times | Duration | Endless

  /** A repeat value as Python stores it: the parser puts an `int` in a TIMES
      repeat and a `float` in a DURATION repeat. */
  datatype Number = IntValue(i: int) | FloatValue(x: real)
  {
    function AsReal(): real
    {
      match this
      case IntValue(i) => i as real
      case FloatValue(x) => x
    }
  }

  /** The value is optional and absent unless given; the type does not tie
      its presence to the mode. */
  datatype Repeat = Repeat(mode: RepeatMode, value: Option<Number> := None)

  /** Start frequencies are always present; either end may be absent. */
  datatype BinauralParams = BinauralParams(
    leftFreq: real, leftEnd: Option<real>,
    rightFreq: real, rightEnd: Option<real>)

  /** One overlay instruction; without a repeat unless one is given. */
  datatype EffectParams = EffectParams(
    file: string, gain: real, offset: real, repeat: Option<Repeat> := None)

  /** The invariant every repeat that the effect parser builds satisfies: a
      count or a duration carries a positive value, an endless repeat none. */
  predicate WellFormedRepeat(r: Repeat)
  {
    match r.mode
    case Times => r.value.Some? && r.value.value.IntValue? && r.value.value.i > 0
    case Duration => r.value.Some? && r.value.value.FloatValue? && r.value.value.x > 0.0
    case Endless => r.value.None?
  }

  /** Why an argument string was rejected; the cause the source chains to the
      one `ValueError` it raises for the whole string. */
  datatype Cause =
    | FieldCount(found: nat)            // wrong number of ':'-separated fields
    | NotANumber(text: string)          // `float()` rejected the text
    | MissingOffset                     // the offset field is absent or empty
    | BadRepeatTimes(value: string)     // `int()` rejected the count of `Nx`
    | RepeatTimesNotPositive
    | BadRepeatDuration(value: string)  // `float()` rejected the seconds of `Ts`
    | RepeatDurationNotPositive
    | BadRepeatValue(value: string)     // neither `Nx`, `Ts` nor `inf`
    | RepeatValueRequired               // a count or duration without a value

  /** The `ValueError` a parser raises: its message names the whole input. */
  datatype ParseError = ParseError(message: string, cause: Cause)

  /** `float(text)`, with the text it rejected as the cause. */
  function ParseFloat(c: Conversions, text: string): (r: Result<real, Cause>)
    ensures r.Success? <==> c.parseFloat(text).Some?
    ensures r.Success? ==> r.value == c.parseFloat(text).value
    ensures r.Failure? ==> r.error == NotANumber(text)
  {
    match c.parseFloat(text)
    case Some(x) => Success(x)
    case None => Failure(NotANumber(text))
  }
}
