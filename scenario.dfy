/** How trunks/scenario.go turns a scenario action's pace into a pacer. */
module Scenario {
  import opened Base

  /** `PRate`: a frequency per period, the period as duration text. */
  datatype PRate = PRate(freq: int, per: string)

  /** `PLinear`: a starting rate and the slope it rises by. The slope is a
      `float64` the code only copies; it is carried as a real here. */
  datatype PLinear = PLinear(start: PRate, slope: real)

  /** `Pace`: either part may be absent. */
  datatype Pace = Pace(rate: Option<PRate>, linear: Option<PLinear>)

  /** `Action`: the scenario step; its pace may be absent in the file. */
  datatype Action = Action(rpcMethod: string, duration: string, bridge: string, to: string, pace: Option<Pace>)

  /** The pacers `GetPace` builds; durations in nanoseconds. */
  datatype Pacer =
    | Rate(freq: int, per: int)
    | Linear(startFreq: int, startPer: int, slope: real)

  /** `d, _ := time.ParseDuration(s)`: the parsed duration, or 0 (what
      `ParseDuration` returns with its error) when the text does not parse. */
  function DurationOf(s: string, parseDuration: string -> Result<int>): (d: int)
    ensures parseDuration(s).Err? ==> d == 0
    ensures parseDuration(s).Ok? ==> d == parseDuration(s).value
  {
    match parseDuration(s)
    case Ok(d) => d
    case Err(_) => 0
  }

  /** `GetPace`: a rate when one is given, else a linear pacer when that is
      given, else none. The action's pace must be present: the source
      dereferences it. */
  function GetPace(a: Action, parseDuration: string -> Result<int>): (p: Option<Pacer>)
    requires a.pace.Some?
    ensures p.None? <==> a.pace.value.rate.None? && a.pace.value.linear.None?
    ensures p.Some? && p.value.Rate? <==> a.pace.value.rate.Some?
    ensures p.Some? && p.value.Linear? <==> a.pace.value.rate.None? && a.pace.value.linear.Some?
  {
    var pace := a.pace.value;
    if pace.rate.Some? then
      Some(Rate(pace.rate.value.freq, DurationOf(pace.rate.value.per, parseDuration)))
    else if pace.linear.Some? then
      var start := pace.linear.value.start;
      Some(Linear(start.freq, DurationOf(start.per, parseDuration), pace.linear.value.slope))
    else None
  }

  /** A rate wins over a linear pace: the linear part is then ignored. */
  lemma RateTakesPrecedence(a: Action, parseDuration: string -> Result<int>, other: Option<PLinear>)
    requires a.pace.Some? && a.pace.value.rate.Some?
    ensures GetPace(a, parseDuration)
         == GetPace(a.(pace := Some(a.pace.value.(linear := other))), parseDuration)
  {
  }

  /** The pacer carries the configured frequency and slope unchanged (zero or
      negative frequencies included) and the parsed period. */
  lemma GetPaceCopiesSettings(a: Action, parseDuration: string -> Result<int>)
    requires a.pace.Some?
    ensures var pace := a.pace.value;
      match GetPace(a, parseDuration)
      case None => true
      case Some(Rate(f, d)) => f == pace.rate.value.freq && d == DurationOf(pace.rate.value.per, parseDuration)
      case Some(Linear(f, d, s)) =>
        && f == pace.linear.value.start.freq && s == pace.linear.value.slope
        && d == DurationOf(pace.linear.value.start.per, parseDuration)
  {
  }
}
