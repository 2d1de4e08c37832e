/**
 * The appliance's global state and its single-threaded main loop: weather
 * refresh, clock resync, and the display alternating between the time and
 * the temperature.
 */
module Clock {
  import opened Wrappers
  import opened TimeFormat
  import opened Weather
  import QuietHours
  import DisplayText

  /** Ticks between display changes, weather refreshes and clock resyncs. */
  const DisplayPeriod := 3
  const WeatherPeriod := 300
  const NtpPeriod := 86400

  /** What the segment display prints. A temperature is shown as `"{:4.0f}"` renders the value. */
  datatype Face = Blank | Text(text: string) | Temperature(value: real)

  /** The display's visible state: what it prints, its colon, its two dots and its brightness. */
  class Display {
    var face: Face
    var colon: bool
    /** The top-left dot, lit in the afternoon. */
    var pmDot: bool
    /** The bottom-left dot, lit while a weather fetch is in progress. */
    var busyDot: bool
    var brightness: real

    constructor ()
      ensures face == Blank && !colon && !pmDot && !busyDot && brightness == 1.0
    {
      face, colon, pmDot, busyDot, brightness := Blank, false, false, false, 1.0;
    }
  }

  /** The main loop's own variables. */
  datatype LoopState = LoopState(
    colon: bool, currentDisplay: int, displayCounter: int, weatherCounter: int, ntpCounter: int)

  /** One tick as the loop body applies it: every counter goes up, and one that reaches its period restarts. */
  function Advance(s: LoopState): LoopState
  {
    var dc, wc, nc := s.displayCounter + 1, s.weatherCounter + 1, s.ntpCounter + 1;
    var cd := if dc >= DisplayPeriod then s.currentDisplay + 1 else s.currentDisplay;
    LoopState(!s.colon, if cd > 1 then 0 else cd, if dc >= DisplayPeriod then 0 else dc,
      if wc >= WeatherPeriod then 0 else wc, if nc >= NtpPeriod then 0 else nc)
  }

  /**
   * The loop state after `n` one-second ticks: the initial values, advanced
   * once per tick. Every counter stays below its period and the display
   * slot is 0 or 1.
   */
  function LoopAt(n: nat): (s: LoopState)
    ensures 0 <= s.displayCounter < DisplayPeriod
    ensures 0 <= s.weatherCounter < WeatherPeriod
    ensures 0 <= s.ntpCounter < NtpPeriod
    ensures s.currentDisplay == 0 || s.currentDisplay == 1
  {
    if n == 0 then LoopState(true, 0, 0, 0, 0) else Advance(LoopAt(n - 1))
  }

  lemma MulAtLeast(m: int, k: int)
    requires m >= 1 && k > 0
    ensures m * k >= k
  {
    if m > 1 {
      MulAtLeast(m - 1, k);
      assert m * k == (m - 1) * k + k;
    }
  }

  lemma MulBounds(m: int, k: int)
    requires k > 0
    ensures m >= 1 ==> m * k >= k
    ensures m <= -1 ==> m * k <= -k
  {
    if m >= 1 {
      MulAtLeast(m, k);
    } else if m <= -1 {
      MulAtLeast(-m, k);
      assert (-m) * k == -(m * k);
    }
  }

  /** Quotient and remainder are the only ones: `a == q * k + r` with `0 <= r < k` fixes both. */
  lemma DivModUnique(a: int, k: int, q: int, r: int)
    requires k > 0 && 0 <= r < k && a == q * k + r
    ensures a / k == q && a % k == r
  {
    var q0, r0 := a / k, a % k;
    assert (q - q0) * k == r0 - r;
    MulBounds(q - q0, k);
  }

  lemma WrapStep(n: nat, k: nat)
    requires k > 0
    ensures (n + 1) % k == if n % k + 1 >= k then 0 else n % k + 1
    ensures (n + 1) / k == if n % k + 1 >= k then n / k + 1 else n / k
  {
    var q, r := n / k, n % k;
    if r + 1 >= k {
      assert n + 1 == (q + 1) * k + 0;
      DivModUnique(n + 1, k, q + 1, 0);
    } else {
      DivModUnique(n + 1, k, q, r + 1);
    }
  }

  /**
   * The closed form of the loop state: after `n` ticks the colon is lit iff
   * `n` is even, the display slot is `(n / 3) % 2`, and each counter is `n`
   * modulo its period.
   */
  lemma {:induction false} LoopAtClosedForm(n: nat)
    ensures LoopAt(n) == LoopState(n % 2 == 0, (n / DisplayPeriod) % 2, n % DisplayPeriod,
      n % WeatherPeriod, n % NtpPeriod)
  {
    if n > 0 {
      LoopAtClosedForm(n - 1);
      WrapStep(n - 1, 2);
      WrapStep(n - 1, DisplayPeriod);
      WrapStep(n - 1, WeatherPeriod);
      WrapStep(n - 1, NtpPeriod);
      WrapStep((n - 1) / DisplayPeriod, 2);
    }
  }

  /** A counter reaches its period on the tick that makes the tick count a multiple of the period. */
  lemma PeriodReached(n: nat)
    ensures LoopAt(n).weatherCounter + 1 >= WeatherPeriod <==> (n + 1) % WeatherPeriod == 0
    ensures LoopAt(n).ntpCounter + 1 >= NtpPeriod <==> (n + 1) % NtpPeriod == 0
  {
    LoopAtClosedForm(n);
    WrapStep(n, WeatherPeriod);
    WrapStep(n, NtpPeriod);
  }

  /** How many multiples of `k` a tick crosses. */
  lemma CrossingStep(n: nat, k: nat)
    requires k > 0
    ensures (n + 1) / k - n / k == if (n + 1) % k == 0 then 1 else 0
  {
    WrapStep(n, k);
  }

  /** `timezone / 3600`: the offset in hours handed to the time service. */
  function TzHours(timezone: int): real { timezone as real / 3600.0 }

  /** What the display shows, as a value. */
  datatype Screen = Screen(face: Face, colon: bool, pmDot: bool, busyDot: bool, brightness: real)

  /** Everything the main loop reads or changes, as a value: the weather report, the clock sync, the loop variables and the display. */
  datatype ClockState = ClockState(report: Snapshot, rtc: Option<int>, lastNtp: int, loop: LoopState, screen: Screen)

  /** The report is one fetch's, the brightness follows that fetch, and the last sync time is the time written to the clock. */
  predicate Coherent(s: ClockState)
  {
    Consistent(s.report)
    && (s.report.data.Some? ==>
          s.screen.brightness == Brightness(s.report.data.value.dt, s.report.data.value.sunrise, s.report.data.value.sunset))
    && (s.rtc.Some? ==> s.lastNtp == s.rtc.value)
  }

  /**
   * `getWeather`: the busy dot is lit for the fetch. On failure it stays
   * lit and nothing else changes; on success it goes out, the report is
   * replaced from the payload and the brightness follows daylight.
   */
  function WeatherUpdate(s: ClockState, fetch: Option<WeatherPayload>, now: int): ClockState
  {
    match fetch
    case None => s.(screen := s.screen.(busyDot := true))
    case Some(p) =>
      s.(report := Refreshed(p, now),
         screen := s.screen.(busyDot := false, brightness := Brightness(p.dt, p.sunrise, p.sunset)))
  }

  /**
   * `GetNTPTime`: the time service is asked for the time at the report's
   * timezone offset. On failure nothing changes; on success the clock is
   * set and the sync time recorded.
   */
  function NtpUpdate(s: ClockState, fetch: real -> Option<int>): ClockState
  {
    var answer := fetch(TzHours(s.report.timezone));
    if answer.None? then s else s.(rtc := answer, lastNtp := answer.value)
  }

  /** `displayTime` from one reading of the local time: the clock face, the loop's colon, the PM dot after noon. */
  function TimeScreen(sc: Screen, local: CalendarTime, colon: bool): Screen
  {
    sc.(face := Text(DisplayText.Face(local).text), colon := colon, pmDot := DisplayText.Face(local).pm)
  }

  /** `displayTemperature`: the temperature, colon and PM dot dark. */
  function TemperatureScreen(sc: Screen, temperature: real): Screen
  {
    sc.(face := Temperature(temperature), colon := false, pmDot := false)
  }

  /** `displayConditions`: the first four characters of the condition code, colon and PM dot dark. */
  function ConditionsScreen(sc: Screen, conditions: string): (r: Screen)
    ensures r.face.Text? && r.face.text <= conditions
    ensures |r.face.text| == if |conditions| < 4 then |conditions| else 4
    ensures !r.colon && !r.pmDot
    ensures r.busyDot == sc.busyDot && r.brightness == sc.brightness
  {
    sc.(face := Text(DisplayText.ConditionsText(conditions)), colon := false, pmDot := false)
  }

  /** The one-second counter: a tick flips the colon and advances every counter. */
  function CountTick(s: ClockState, tick: bool): ClockState
  {
    if tick then
      s.(loop := s.loop.(colon := !s.loop.colon, displayCounter := s.loop.displayCounter + 1,
        weatherCounter := s.loop.weatherCounter + 1, ntpCounter := s.loop.ntpCounter + 1))
    else s
  }

  /** Once a day: restart the day counter and resynchronise the clock. */
  function ResyncWhenDue(s: ClockState, ntp: real -> Option<int>): ClockState
  {
    if s.loop.ntpCounter >= NtpPeriod then NtpUpdate(s.(loop := s.loop.(ntpCounter := 0)), ntp) else s
  }

  /** Every three ticks: restart the display counter and move to the next slot. */
  function NextSlot(s: ClockState): ClockState
  {
    if s.loop.displayCounter >= DisplayPeriod then
      s.(loop := s.loop.(displayCounter := 0, currentDisplay := s.loop.currentDisplay + 1))
    else s
  }

  /** Every five minutes: restart the weather counter and fetch the weather. */
  function RefreshWhenDue(s: ClockState, weather: Option<WeatherPayload>, now: int): ClockState
  {
    if s.loop.weatherCounter >= WeatherPeriod then
      WeatherUpdate(s.(loop := s.loop.(weatherCounter := 0)), weather, now)
    else s
  }

  /** Past the last slot, back to the first. */
  function WrapSlot(s: ClockState): ClockState
  {
    if s.loop.currentDisplay > 1 then s.(loop := s.loop.(currentDisplay := 0)) else s
  }

  /** The time in the first slot or in quiet hours, otherwise the temperature in the second slot. */
  function ShowSlot(s: ClockState, local: CalendarTime): ClockState
  {
    if s.loop.currentDisplay == 0 || QuietHours.IsDoNotDisturb(local) then
      s.(screen := TimeScreen(s.screen, local, s.loop.colon))
    else if s.loop.currentDisplay == 1 then
      s.(screen := TemperatureScreen(s.screen, s.report.temperature))
    else s
  }

  /** One pass of the main loop: the new state, and whether it resynchronised the clock and refreshed the weather. */
  datatype Iteration = Iteration(state: ClockState, resync: bool, refresh: bool)

  function Iterate(s: ClockState, tick: bool, local: CalendarTime, now: int,
                   weather: Option<WeatherPayload>, ntp: real -> Option<int>): Iteration
  {
    var s1 := CountTick(s, tick);
    var s2 := NextSlot(ResyncWhenDue(s1, ntp));
    var s3 := RefreshWhenDue(s2, weather, now);
    Iteration(ShowSlot(WrapSlot(s3), local), s1.loop.ntpCounter >= NtpPeriod, s2.loop.weatherCounter >= WeatherPeriod)
  }

  /** Both network updates keep the state coherent. */
  lemma UpdatesKeepCoherent(s: ClockState, fetch: Option<WeatherPayload>, now: int, ntp: real -> Option<int>)
    requires Coherent(s)
    ensures Coherent(WeatherUpdate(s, fetch, now)) && Coherent(NtpUpdate(s, ntp))
  {
  }

  /** The loop variables of one pass: within their ranges, exactly one tick of `Advance`, or nothing without a tick. */
  lemma IterateLoop(s: ClockState, tick: bool, local: CalendarTime, now: int,
                    weather: Option<WeatherPayload>, ntp: real -> Option<int>)
    requires 0 <= s.loop.displayCounter < DisplayPeriod && 0 <= s.loop.weatherCounter < WeatherPeriod
    requires 0 <= s.loop.ntpCounter < NtpPeriod && 0 <= s.loop.currentDisplay <= 1
    ensures var it := Iterate(s, tick, local, now, weather, ntp);
      && it.state.loop == (if tick then Advance(s.loop) else s.loop)
      && it.resync == (tick && s.loop.ntpCounter + 1 >= NtpPeriod)
      && it.refresh == (tick && s.loop.weatherCounter + 1 >= WeatherPeriod)
  {
    if !tick {
      return;
    }
    var s1 := CountTick(s, tick);
    var s2 := ResyncWhenDue(s1, ntp);
    assert s2.loop == s1.loop.(ntpCounter := if s1.loop.ntpCounter >= NtpPeriod then 0 else s1.loop.ntpCounter);
    var s3 := NextSlot(s2);
    var s4 := RefreshWhenDue(s3, weather, now);
    assert s4.loop == s3.loop.(weatherCounter := if s3.loop.weatherCounter >= WeatherPeriod then 0 else s3.loop.weatherCounter);
  }

  /** Each stage of a pass keeps the state coherent: the display changes only what the report does not govern. */
  lemma StagesKeepCoherent(s: ClockState, tick: bool, local: CalendarTime, now: int,
                           weather: Option<WeatherPayload>, ntp: real -> Option<int>)
    requires Coherent(s)
    ensures Coherent(CountTick(s, tick)) && Coherent(ResyncWhenDue(s, ntp)) && Coherent(NextSlot(s))
    ensures Coherent(RefreshWhenDue(s, weather, now)) && Coherent(WrapSlot(s)) && Coherent(ShowSlot(s, local))
  {
    UpdatesKeepCoherent(s.(loop := s.loop.(ntpCounter := 0)), weather, now, ntp);
    UpdatesKeepCoherent(s.(loop := s.loop.(weatherCounter := 0)), weather, now, ntp);
  }

  lemma IterateCoherent(s: ClockState, tick: bool, local: CalendarTime, now: int,
                        weather: Option<WeatherPayload>, ntp: real -> Option<int>)
    requires Coherent(s)
    ensures Coherent(Iterate(s, tick, local, now, weather, ntp).state)
  {
    var s1 := CountTick(s, tick);
    StagesKeepCoherent(s, tick, local, now, weather, ntp);
    var s2 := ResyncWhenDue(s1, ntp);
    StagesKeepCoherent(s1, tick, local, now, weather, ntp);
    var s3 := NextSlot(s2);
    StagesKeepCoherent(s2, tick, local, now, weather, ntp);
    var s4 := RefreshWhenDue(s3, weather, now);
    StagesKeepCoherent(s3, tick, local, now, weather, ntp);
    var s5 := WrapSlot(s4);
    StagesKeepCoherent(s4, tick, local, now, weather, ntp);
    StagesKeepCoherent(s5, tick, local, now, weather, ntp);
  }

  /**
   * The loop body computes exactly the tick function: started from the
   * state after `n` ticks it yields the state after `n + 1` ticks (or `n`
   * when no second passed), keeps the state coherent, resynchronises the
   * clock exactly when the tick count becomes a multiple of a day and
   * refreshes the weather exactly when it becomes a multiple of five minutes.
   */
  lemma IterateSchedule(s: ClockState, n: nat, tick: bool, local: CalendarTime, now: int,
                        weather: Option<WeatherPayload>, ntp: real -> Option<int>)
    requires Coherent(s) && s.loop == LoopAt(n)
    ensures var it := Iterate(s, tick, local, now, weather, ntp);
      && Coherent(it.state)
      && it.state.loop == LoopAt(if tick then n + 1 else n)
      && (it.resync <==> tick && (n + 1) % NtpPeriod == 0)
      && (it.refresh <==> tick && (n + 1) % WeatherPeriod == 0)
  {
    PeriodReached(n);
    IterateLoop(s, tick, local, now, weather, ntp);
    IterateCoherent(s, tick, local, now, weather, ntp);
  }

  /** What each stage of a pass leaves alone. */
  lemma StagesFrame(s: ClockState, tick: bool, local: CalendarTime, now: int,
                    weather: Option<WeatherPayload>, ntp: real -> Option<int>)
    ensures var c := CountTick(s, tick); c.report == s.report && c.rtc == s.rtc && c.lastNtp == s.lastNtp && c.screen == s.screen
    ensures var r := ResyncWhenDue(s, ntp); r.report == s.report && r.screen == s.screen
    ensures var n := NextSlot(s); n.report == s.report && n.rtc == s.rtc && n.lastNtp == s.lastNtp && n.screen == s.screen
    ensures var w := RefreshWhenDue(s, weather, now); w.rtc == s.rtc && w.lastNtp == s.lastNtp
    ensures var p := WrapSlot(s); p.report == s.report && p.rtc == s.rtc && p.lastNtp == s.lastNtp && p.screen == s.screen
    ensures var v := ShowSlot(s, local);
      && v.report == s.report && v.rtc == s.rtc && v.lastNtp == s.lastNtp
      && v.screen.busyDot == s.screen.busyDot && v.screen.brightness == s.screen.brightness
  {
  }

  /** A pass sets the clock only by a resync whose request succeeds, at the report's offset before the pass. */
  lemma IterateSync(s: ClockState, tick: bool, local: CalendarTime, now: int,
                    weather: Option<WeatherPayload>, ntp: real -> Option<int>)
    ensures var it := Iterate(s, tick, local, now, weather, ntp);
      var answer := ntp(TzHours(s.report.timezone));
      && it.state.rtc == (if it.resync && answer.Some? then answer else s.rtc)
      && it.state.lastNtp == (if it.resync && answer.Some? then answer.value else s.lastNtp)
  {
    var s1 := CountTick(s, tick);
    StagesFrame(s, tick, local, now, weather, ntp);
    var s2 := ResyncWhenDue(s1, ntp);
    StagesFrame(s1, tick, local, now, weather, ntp);
    var s3 := NextSlot(s2);
    StagesFrame(s2, tick, local, now, weather, ntp);
    var s4 := RefreshWhenDue(s3, weather, now);
    StagesFrame(s3, tick, local, now, weather, ntp);
    var s5 := WrapSlot(s4);
    StagesFrame(s4, tick, local, now, weather, ntp);
    StagesFrame(s5, tick, local, now, weather, ntp);
  }

  /**
   * A pass replaces the report only by a refresh whose fetch succeeds; a
   * failed refresh leaves the busy dot lit, and the brightness follows the
   * new report.
   */
  lemma IterateWeather(s: ClockState, tick: bool, local: CalendarTime, now: int,
                       weather: Option<WeatherPayload>, ntp: real -> Option<int>)
    ensures var it := Iterate(s, tick, local, now, weather, ntp);
      && it.state.report == (if it.refresh && weather.Some? then Refreshed(weather.value, now) else s.report)
      && it.state.screen.busyDot == (if it.refresh then weather.None? else s.screen.busyDot)
      && it.state.screen.brightness == (if it.refresh && weather.Some?
           then Brightness(weather.value.dt, weather.value.sunrise, weather.value.sunset)
           else s.screen.brightness)
  {
    var s1 := CountTick(s, tick);
    StagesFrame(s, tick, local, now, weather, ntp);
    var s2 := ResyncWhenDue(s1, ntp);
    StagesFrame(s1, tick, local, now, weather, ntp);
    var s3 := NextSlot(s2);
    StagesFrame(s2, tick, local, now, weather, ntp);
    var s4 := RefreshWhenDue(s3, weather, now);
    var s5 := WrapSlot(s4);
    StagesFrame(s4, tick, local, now, weather, ntp);
    StagesFrame(s5, tick, local, now, weather, ntp);
  }

  /**
   * What one pass shows: the temperature exactly in the second display
   * slot outside quiet hours, and otherwise the time, with the colon
   * following the loop's flag and the PM dot the hour. The temperature
   * shown is the one just fetched, when the pass refreshed the weather.
   */
  lemma IterateShows(s: ClockState, n: nat, tick: bool, local: CalendarTime, now: int,
                     weather: Option<WeatherPayload>, ntp: real -> Option<int>)
    requires s.loop == LoopAt(n)
    ensures var it := Iterate(s, tick, local, now, weather, ntp);
      var sc := it.state.screen;
      && (sc.face.Temperature? <==> it.state.loop.currentDisplay == 1 && !QuietHours.IsDoNotDisturb(local))
      && sc.face == (if sc.face.Temperature? then Temperature(it.state.report.temperature)
                     else Text(DisplayText.Face(local).text))
      && sc.colon == (!sc.face.Temperature? && it.state.loop.colon)
      && sc.pmDot == (!sc.face.Temperature? && local.hour > 11)
  {
    var it := Iterate(s, tick, local, now, weather, ntp);
    assert it.state.loop.currentDisplay == 0 || it.state.loop.currentDisplay == 1 by {
      IterateWithinRange(s, n, tick, local, now, weather, ntp);
    }
  }

  lemma IterateWithinRange(s: ClockState, n: nat, tick: bool, local: CalendarTime, now: int,
                           weather: Option<WeatherPayload>, ntp: real -> Option<int>)
    requires s.loop == LoopAt(n)
    ensures var l := Iterate(s, tick, local, now, weather, ntp).state.loop;
      l.currentDisplay == 0 || l.currentDisplay == 1
  {
  }

  /** The outcome of start-up: running, or an error code shown before the restart. */
  datatype StartOutcome = Running | Fatal(code: string)

  /**
   * Start-up: join the network, fetch the weather (which also gives the
   * timezone), then set the clock. The first failure is fatal and shows
   * its code; after success the loop variables take their initial values.
   */
  function StartUp(s: ClockState, wifiOk: bool, weather: Option<WeatherPayload>, ntp: real -> Option<int>, now: int)
    : (ClockState, StartOutcome)
  {
    if !wifiOk then (s.(screen := s.screen.(face := Text("WiFi"))), Fatal("WiFi"))
    else
      var s1 := WeatherUpdate(s, weather, now);
      if weather.None? then (s1.(screen := s1.screen.(face := Text("Err"))), Fatal("Err"))
      else if ntp(TzHours(s1.report.timezone)).None? then (s1.(screen := s1.screen.(face := Text("Time"))), Fatal("Time"))
      else (NtpUpdate(s1, ntp).(loop := LoopAt(0)), Running)
  }

  /**
   * Start-up fails at the first missing service, in order, and shows that
   * failure's code; the clock is set at the offset of the weather just
   * fetched, and a start-up that succeeds leaves a coherent state at the
   * start of the loop.
   */
  lemma StartUpOutcomes(s: ClockState, wifiOk: bool, weather: Option<WeatherPayload>, ntp: real -> Option<int>, now: int)
    requires Coherent(s)
    ensures var (r, outcome) := StartUp(s, wifiOk, weather, ntp, now);
      && outcome == (if !wifiOk then Fatal("WiFi")
                     else if weather.None? then Fatal("Err")
                     else if ntp(TzHours(weather.value.timezone)).None? then Fatal("Time")
                     else Running)
      && (outcome.Fatal? ==> r.screen.face == Text(outcome.code) && r.rtc == s.rtc)
      && (outcome == Running ==>
            r.report == Refreshed(weather.value, now) && r.rtc == ntp(TzHours(weather.value.timezone))
            && r.loop == LoopAt(0))
      && Coherent(r)
  {
    if wifiOk {
      UpdatesKeepCoherent(s, weather, now, ntp);
      UpdatesKeepCoherent(WeatherUpdate(s, weather, now), weather, now, ntp);
    }
  }

  /** The inputs of one loop iteration: whether a second passed, the clock readings and the two network results. */
  datatype StepInput = StepInput(
    tick: bool, local: CalendarTime, now: int, weather: Option<WeatherPayload>, ntp: real -> Option<int>)

  /** How many of the iterations saw a second pass. */
  function TickCount(inputs: seq<StepInput>): (n: nat)
    ensures n <= |inputs|
  {
    if inputs == [] then 0
    else TickCount(inputs[..|inputs| - 1]) + (if inputs[|inputs| - 1].tick then 1 else 0)
  }

  /** The appliance's globals: the weather report, the clock sync, the loop variables, and the display they drive. */
  class SegmentClock {
    const display: Display

    // The weather report.
    var conditions: string
    var sunrise: int
    var sunset: int
    var temperature: real
    var timezone: int
    var lastWeather: int
    var weatherData: Option<WeatherPayload>

    // Clock synchronisation: the time last written to the real-time clock, and when.
    var rtc: Option<int>
    var lastNtp: int

    // The main loop's variables.
    var colon: bool
    var currentDisplay: int
    var displayCounter: int
    var weatherCounter: int
    var ntpCounter: int
    /** Ticks counted since the loop began. */
    ghost var ticks: nat

    /** The display, and the whole appliance state, as values. */
    function Shown(): Screen
      reads display
    {
      Screen(display.face, display.colon, display.pmDot, display.busyDot, display.brightness)
    }

    function Report(): Snapshot
      reads this`conditions, this`sunrise, this`sunset, this`temperature, this`timezone, this`lastWeather, this`weatherData
    {
      Snapshot(conditions, sunrise, sunset, temperature, timezone, lastWeather, weatherData)
    }

    function Loop(): LoopState
      reads this`colon, this`currentDisplay, this`displayCounter, this`weatherCounter, this`ntpCounter
    {
      LoopState(colon, currentDisplay, displayCounter, weatherCounter, ntpCounter)
    }

    function State(): ClockState
      reads this, display
    {
      ClockState(Report(), rtc, lastNtp, Loop(), Shown())
    }

    /** The state is coherent and the loop variables are those after `ticks` ticks. */
    ghost predicate Valid()
      reads this, display
    {
      Coherent(State()) && State().loop == LoopAt(ticks)
    }

    /** The state before start-up: nothing fetched, nothing synchronised, the loop at its start. */
    constructor ()
      ensures Valid() && fresh(display)
      ensures weatherData == None && rtc == None && ticks == 0
      ensures display.face == Blank
    {
      display := new Display();
      conditions, sunrise, sunset, temperature, timezone, lastWeather := "", 0, 0, 0.0, 0, 0;
      weatherData, rtc, lastNtp := None, None, 0;
      colon, currentDisplay, displayCounter, weatherCounter, ntpCounter := true, 0, 0, 0, 0;
      ticks := 0;
    }

    /** `getWeather` on the globals; the report and the display end as `WeatherUpdate` says. */
    method GetWeather(fetch: Option<WeatherPayload>, now: int) returns (ok: bool)
      modifies this`conditions, this`sunrise, this`sunset, this`temperature, this`timezone, this`lastWeather,
        this`weatherData, display`busyDot, display`brightness
      ensures ok == fetch.Some?
      ensures Report() == WeatherUpdate(old(State()), fetch, now).report
      ensures Shown() == WeatherUpdate(old(State()), fetch, now).screen
    {
      display.busyDot := true;
      if fetch.None? {
        return false;
      }
      var payload := fetch.value;
      weatherData := fetch;
      display.busyDot := false;
      lastWeather := now;
      conditions := ConditionCode(payload.main);
      var dt := payload.dt;
      sunrise := payload.sunrise;
      sunset := payload.sunset;
      temperature := payload.temp;
      timezone := payload.timezone;
      if dt > sunrise && dt < sunset {
        display.brightness := 1.0;
      } else {
        display.brightness := 0.0;
      }
      return true;
    }

    /** `GetNTPTime` on the globals, as `NtpUpdate` says. */
    method GetNtpTime(fetch: real -> Option<int>) returns (ok: bool)
      modifies this`rtc, this`lastNtp
      ensures ok == fetch(TzHours(timezone)).Some?
      ensures State() == NtpUpdate(old(State()), fetch)
    {
      var answer := fetch(TzHours(timezone));
      if answer.None? {
        return false;
      }
      rtc := answer;
      lastNtp := answer.value;
      return true;
    }

    /** `displayTime`, drawn from one reading of the local time. */
    method DisplayTime(local: CalendarTime)
      modifies display`face, display`colon, display`pmDot
      ensures Shown() == TimeScreen(old(Shown()), local, colon)
    {
      var face := DisplayText.Face(local);
      display.face := Text(face.text);
      display.colon := colon;
      if local.hour > 11 {
        display.pmDot := true;
      } else {
        display.pmDot := false;
      }
    }

    /** `displayTemperature`. */
    method DisplayTemperature()
      modifies display`face, display`colon, display`pmDot
      ensures Shown() == TemperatureScreen(old(Shown()), temperature)
    {
      display.face := Temperature(temperature);
      display.colon := false;
      display.pmDot := false;
    }

    /** `displayConditions`, defined in the appliance but not called by its loop. */
    method DisplayConditions()
      modifies display`face, display`colon, display`pmDot
      ensures Shown() == ConditionsScreen(old(Shown()), conditions)
    {
      display.face := Text(DisplayText.ConditionsText(conditions));
      display.colon := false;
      display.pmDot := false;
    }

    /** Start-up on the globals, as `StartUp` says; a successful start-up restarts the tick count. */
    method Start(wifiOk: bool, weather: Option<WeatherPayload>, ntp: real -> Option<int>, now: int)
      returns (outcome: StartOutcome)
      requires Valid()
      modifies this, display
      ensures (State(), outcome) == StartUp(old(State()), wifiOk, weather, ntp, now)
      ensures ticks == if outcome == Running then 0 else old(ticks)
      ensures Valid()
    {
      ghost var s0 := State();
      StartUpOutcomes(s0, wifiOk, weather, ntp, now);
      if !wifiOk {
        Print("WiFi");
        return Fatal("WiFi");
      }
      var fetched := GetWeather(weather, now);
      assert State() == WeatherUpdate(s0, weather, now);
      if !fetched {
        Print("Err");
        return Fatal("Err");
      }
      var synced := GetNtpTime(ntp);
      assert State() == NtpUpdate(WeatherUpdate(s0, weather, now), ntp);
      if !synced {
        Print("Time");
        return Fatal("Time");
      }
      ResetLoop();
      assert LoopAt(0) == LoopState(true, 0, 0, 0, 0);
      return Running;
    }

    /** Text on the display, leaving its colon and dots as they are. */
    method Print(text: string)
      modifies display`face
      ensures State() == old(State()).(screen := old(State()).screen.(face := Text(text)))
    {
      display.face := Text(text);
    }

    /** The loop variables' initial values, with the tick count restarted. */
    method ResetLoop()
      modifies this`colon, this`currentDisplay, this`displayCounter, this`weatherCounter, this`ntpCounter, this`ticks
      ensures Loop() == LoopState(true, 0, 0, 0, 0) && ticks == 0
    {
      colon := true;
      currentDisplay := 0;
      displayCounter := 0;
      weatherCounter := 0;
      ntpCounter := 0;
      ticks := 0;
    }

    /** One pass of the `while True` loop, as `Iterate` says, stage by stage in the loop's order. */
    method Step(tick: bool, local: CalendarTime, now: int, weather: Option<WeatherPayload>, ntp: real -> Option<int>)
      returns (resync: bool, refresh: bool)
      requires Valid()
      modifies this, display
      ensures Iteration(State(), resync, refresh) == Iterate(old(State()), tick, local, now, weather, ntp)
      ensures ticks == old(ticks) + (if tick then 1 else 0)
      ensures Valid()
      ensures resync <==> tick && ticks % NtpPeriod == 0
      ensures refresh <==> tick && ticks % WeatherPeriod == 0
    {
      IterateSchedule(State(), ticks, tick, local, now, weather, ntp);
      CountSecond(tick);
      resync := ResyncIfDue(ntp);
      AdvanceSlot();
      refresh := RefreshIfDue(weather, now);
      ResetSlot();
      ShowCurrent(local);
    }

    /** The one-second counter, as `CountTick` says. */
    method CountSecond(tick: bool)
      modifies this`colon, this`displayCounter, this`weatherCounter, this`ntpCounter, this`ticks
      ensures State() == CountTick(old(State()), tick)
      ensures ticks == old(ticks) + (if tick then 1 else 0)
    {
      if tick {
        colon := !colon;
        displayCounter := displayCounter + 1;
        weatherCounter := weatherCounter + 1;
        ntpCounter := ntpCounter + 1;
        ticks := ticks + 1;
      }
    }

    /** The daily resync, as `ResyncWhenDue` says. */
    method ResyncIfDue(ntp: real -> Option<int>) returns (due: bool)
      modifies this`ntpCounter, this`rtc, this`lastNtp
      ensures due == (old(ntpCounter) >= NtpPeriod)
      ensures State() == ResyncWhenDue(old(State()), ntp)
    {
      due := ntpCounter >= NtpPeriod;
      if due {
        ntpCounter := 0;
        var _ := GetNtpTime(ntp);
      }
    }

    /** The three-second display change, as `NextSlot` says. */
    method AdvanceSlot()
      modifies this`displayCounter, this`currentDisplay
      ensures State() == NextSlot(old(State()))
    {
      if displayCounter >= DisplayPeriod {
        displayCounter := 0;
        currentDisplay := currentDisplay + 1;
      }
    }

    /** The display slot reset, as `WrapSlot` says. */
    method ResetSlot()
      modifies this`currentDisplay
      ensures State() == WrapSlot(old(State()))
    {
      if currentDisplay > 1 {
        currentDisplay := 0;
      }
    }

    /** The five-minute weather refresh, as `RefreshWhenDue` says. */
    method RefreshIfDue(weather: Option<WeatherPayload>, now: int) returns (due: bool)
      modifies this`weatherCounter, this`conditions, this`sunrise, this`sunset, this`temperature,
        this`timezone, this`lastWeather, this`weatherData, display`busyDot, display`brightness
      ensures due == (old(weatherCounter) >= WeatherPeriod)
      ensures State() == RefreshWhenDue(old(State()), weather, now)
    {
      due := weatherCounter >= WeatherPeriod;
      if due {
        weatherCounter := 0;
        var _ := GetWeather(weather, now);
      }
    }

    /** The choice of what to display, as `ShowSlot` says. */
    method ShowCurrent(local: CalendarTime)
      modifies display`face, display`colon, display`pmDot
      ensures State() == ShowSlot(old(State()), local)
    {
      if currentDisplay == 0 || QuietHours.IsDoNotDisturb(local) {
        DisplayTime(local);
      } else if currentDisplay == 1 {
        DisplayTemperature();
      }
    }

    /**
     * The `while True` loop over a finite run of iterations: every tick is
     * counted, the weather is fetched once per 300 ticks and the clock
     * resynchronised once per 86400 ticks.
     */
    method Run(inputs: seq<StepInput>) returns (refreshes: nat, resyncs: nat)
      requires Valid()
      modifies this, display
      ensures Valid()
      ensures ticks == old(ticks) + TickCount(inputs)
      ensures refreshes == ticks / WeatherPeriod - old(ticks) / WeatherPeriod
      ensures resyncs == ticks / NtpPeriod - old(ticks) / NtpPeriod
    {
      refreshes, resyncs := 0, 0;
      var i := 0;
      while i < |inputs|
        invariant 0 <= i <= |inputs|
        invariant Valid()
        invariant ticks == old(ticks) + TickCount(inputs[..i])
        invariant refreshes == ticks / WeatherPeriod - old(ticks) / WeatherPeriod
        invariant resyncs == ticks / NtpPeriod - old(ticks) / NtpPeriod
      {
        var input := inputs[i];
        ghost var before := ticks;
        var resync, refresh := Step(input.tick, input.local, input.now, input.weather, input.ntp);
        if input.tick {
          CrossingStep(before, WeatherPeriod);
          CrossingStep(before, NtpPeriod);
        }
        if refresh {
          refreshes := refreshes + 1;
        }
        if resync {
          resyncs := resyncs + 1;
        }
        assert inputs[..i + 1][..i] == inputs[..i];
        i := i + 1;
      }
      assert inputs[..|inputs|] == inputs;
    }
  }
}
