/**
 * The weather report the appliance keeps: the provider's payload, the
 * four-character condition code, and the rule that no reader ever sees
 * fields from two different reports.
 */
module Weather {
  import opened Wrappers

  /**
   * The parts of the provider's JSON reply that the appliance reads:
   * `weather[0].main`, `dt`, `sys.sunrise`, `sys.sunset`, `main.temp` and
   * `timezone` (seconds east of UTC).
   */
  datatype WeatherPayload = WeatherPayload(
    main: string, dt: int, sunrise: int, sunset: int, temp: real, timezone: int)

  const KnownConditions: set<string> := {"Thunderstorm", "Drizzle", "Atmosphere", "Clear", "Clouds"}

  /** The provider's condition name shortened for the display; other names pass through. */
  function ConditionCode(main: string): string
  {
    if main == "Thunderstorm" then "Thdr"
    else if main == "Drizzle" then "Drzl"
    else if main == "Atmosphere" then "Atms"
    else if main == "Clear" then "Clr "
    else if main == "Clouds" then "Clds"
    else main
  }

  /** A known condition becomes a four-character code that is no condition name; any other name is kept as it is. */
  lemma ConditionCodeShape(main: string)
    ensures main in KnownConditions ==> |ConditionCode(main)| == 4 && ConditionCode(main) !in KnownConditions
    ensures main !in KnownConditions ==> ConditionCode(main) == main
  {
  }

  /** Different known conditions never share a code. */
  lemma ConditionCodesDistinct(a: string, b: string)
    requires a in KnownConditions && b in KnownConditions && a != b
    ensures ConditionCode(a) != ConditionCode(b)
  {
  }

  /** Daylight: the report was taken strictly between sunrise and sunset. */
  predicate Daytime(dt: int, sunrise: int, sunset: int) { dt > sunrise && dt < sunset }

  /** Full brightness in daylight, lowest otherwise. */
  function Brightness(dt: int, sunrise: int, sunset: int): (level: real)
    ensures level == 1.0 || level == 0.0
    ensures level == 1.0 <==> Daytime(dt, sunrise, sunset)
  {
    if Daytime(dt, sunrise, sunset) then 1.0 else 0.0
  }

  /** The weather globals: every field a reader of the report may look at. */
  datatype Snapshot = Snapshot(
    conditions: string, sunrise: int, sunset: int, temperature: real, timezone: int,
    lastWeather: int, data: Option<WeatherPayload>)

  /** Every field comes from the payload kept in `data`, when there is one. */
  predicate Consistent(s: Snapshot)
  {
    s.data.Some? ==>
      var p := s.data.value;
      s.conditions == ConditionCode(p.main) && s.sunrise == p.sunrise && s.sunset == p.sunset
      && s.temperature == p.temp && s.timezone == p.timezone
  }

  /** The report after a successful fetch of `p` at time `now`. */
  function Refreshed(p: WeatherPayload, now: int): (s: Snapshot)
    ensures Consistent(s) && s.data == Some(p) && s.lastWeather == now
  {
    Snapshot(ConditionCode(p.main), p.sunrise, p.sunset, p.temp, p.timezone, now, Some(p))
  }

  /**
   * A consistent report is determined by its payload and fetch time, so a
   * temperature from one fetch never stands beside a sunrise from another.
   */
  lemma ConsistentIsRefreshed(s: Snapshot)
    requires Consistent(s) && s.data.Some?
    ensures s == Refreshed(s.data.value, s.lastWeather)
  {
  }
}
