# SegmentClock in Dafny

SegmentClock is a CircuitPython appliance that drives a four-character
seven-segment display. It shows a 12-hour clock with a blinking colon and a
PM dot, and every three seconds it alternates with the outside temperature.
Outside the daytime window ("do not disturb") it shows only the clock.
Every five minutes it fetches the weather, which also sets the display
brightness from daylight. Once a day it resets its real-time clock from a
time service, at the timezone offset from the last weather report. It also
serves a status page that renders times and uptimes as text.

This project models that core:

- `Text`: decimal rendering of naturals, zero-padding (`:02`),
  right-justification (`:>2`) and reading digits back.
- `TimeFormat`: the calendar fields of a local time and their rendering as
  `YYYY-MM-DD HH:MM:SS` (`getFormattedTime`).
- `QuietHours`: the do-not-disturb rule (`isDoNotDistrub`).
- `Uptime`: the days/hours/minutes/seconds split of a float uptime with
  Python's truncating `int()`, and its text (`getUptime`).
- `DisplayText`: the clock face (`displayTime`) and the four-character
  condition text (`displayConditions`).
- `Weather`: the parts of the weather payload the appliance reads, the
  condition codes, the brightness rule, and what it means for the report to
  come from one fetch.
- `Clock`: the appliance's globals as the class `SegmentClock`, which drives
  a `Display` object. It models start-up, `getWeather`, `GetNTPTime`, the
  three display routines and the `while True` loop.

The loop is modelled on two levels. `ClockState` is the whole state as a
value, and pure functions (`WeatherUpdate`, `NtpUpdate`, `CountTick`, …,
`Iterate`, `StartUp`) say what each block of the source does to it. Each
method of `SegmentClock` updates the fields in place, in the source's order,
and its contract ties the new state to the matching function of the old
state. The lemmas about those functions state what the source promises:

- every counter stays below its period and follows a closed form of the
  number of ticks;
- the weather is fetched exactly every 300 ticks and the clock resynchronised
  exactly every 86400 ticks;
- the report never mixes fields from two fetches;
- the brightness follows the current report;
- the temperature is shown exactly in the second display slot outside quiet
  hours.

A ghost tick counter `ticks` stands for the seconds counted since start-up.

Quiet hours end after 22:00: `isDoNotDistrub` tests `hour <= 2200`, so the
minute 22:00 itself is still inside the active window.

Where each source routine lives (the lemma or method named after it carries
the contract, and has its row under "## Model"):

- `isDoNotDistrub` (code.py:19-31): `QuietHours.IsDoNotDisturb`; contract in `QuietHours.DoNotDisturbWindow`.
- `getFormattedTime` (code.py:102-105): `TimeFormat.FormatTime`; contract in `TimeFormat.FormatTimeShape`.
- `getUptime` (code.py:107-113): `Uptime.UptimeParts` and `Uptime.FormatUptime`; contracts in `Uptime.UptimeSplits`, `Uptime.UptimeSplitUnique` and `Uptime.UptimeExample`.
- the condition codes (code.py:64-74): `Weather.ConditionCode`; contracts in `Weather.ConditionCodeShape` and `Weather.ConditionCodesDistinct`.
- `getWeather` (code.py:41-87): `Clock.WeatherUpdate`, carried out in place by `Clock.SegmentClock.GetWeather`; contracts in `Clock.UpdatesKeepCoherent` and `Clock.IterateWeather`.
- `GetNTPTime` (code.py:89-100): `Clock.NtpUpdate`, in place `Clock.SegmentClock.GetNtpTime`; contracts in `Clock.UpdatesKeepCoherent` and `Clock.IterateSync`.
- `displayTime` (code.py:115-124): `Clock.TimeScreen`, in place `Clock.SegmentClock.DisplayTime`; the face in `DisplayText.Face` and `DisplayText.ReadClockRoundTrip`.
- `displayTemperature` (code.py:126-130): `Clock.TemperatureScreen`, in place `Clock.SegmentClock.DisplayTemperature`.
- `displayConditions` (code.py:132-135): `Clock.ConditionsScreen`, in place `Clock.SegmentClock.DisplayConditions`.
- start-up (code.py:155-196): `Clock.StartUp`, in place `Clock.SegmentClock.Start`; contract in `Clock.StartUpOutcomes`.
- the loop body (code.py:243-278): `Clock.Iterate`, composed of `Clock.CountTick` (245-250), `Clock.ResyncWhenDue` (253-255), `Clock.NextSlot` (258-260), `Clock.RefreshWhenDue` (263-265), `Clock.WrapSlot` (269-270) and `Clock.ShowSlot` (273-278); in place `Clock.SegmentClock.Step`; contracts in `Clock.IterateLoop`, `Clock.IterateSchedule`, `Clock.IterateCoherent`, `Clock.IterateSync`, `Clock.IterateWeather` and `Clock.IterateShows`.
- the loop variables over many ticks: `Clock.Advance` (one tick) and `Clock.LoopAt`; contracts in `Clock.LoopAt` and `Clock.LoopAtClosedForm`.

## Model

| member | source | states |
|---|---|---|
| Text.NatToString | code.py:105 | `str(n)`: at least one character, all digits, as many as the magnitude of `n` needs (no leading zero) |
| Text.ParseNatToString | code.py:105 | reading the rendered digits back gives the number (rendering is injective) |
| Text.NatToStringLength | code.py:105 | a number between 10^(k-1) and 10^k renders with exactly k digits |
| Text.IntToString | code.py:113 | `str(i)`: a minus sign exactly for negative values, then digits that read back as the magnitude |
| Text.ZeroPad2 | code.py:105 | `{n:02}`: exactly two digits below 100, the number in full above, and the text reads back as `n` |
| Text.RightJustify2 | code.py:119 | `"{:>2}"`: width two below 100, led by a blank exactly for one-digit numbers, and reads back as `n` |
| TimeFormat.FormatTimeShape | code.py:102-105 | the rendering is the year followed by 15 fixed-layout characters: separators `- -  : :` and digits at every other position (fields zero-padded), and it parses back to the six fields |
| TimeFormat.FourDigitYear | code.py:105 | with a four-digit year the rendering is exactly 19 characters with separators at 4, 7, 10, 13, 16 |
| QuietHours.DoNotDisturbWindow | code.py:19-31 | for every valid time, not quiet iff the minute of the day lies from 06:30 (weekdays) or 07:30 (weekends) through 22:00 inclusive |
| QuietHours.WindowEdges | code.py:23-28 | both ends of the window are active and the minutes just outside are quiet; a weekend 06:45 is quiet |
| Uptime.Trunc | code.py:109-112 | `int(x)` on a float: the integer part, within one of `x`, toward zero on either sign |
| Uptime.UptimeSplits | code.py:107-112 | for a non-negative uptime the four parts are in range (hours < 24, minutes and seconds < 60) and add up to its whole seconds |
| Uptime.UptimeSplitUnique | code.py:107-112 | any in-range split of the same whole seconds is the one computed |
| Uptime.UptimeExample | code.py:107-113 | 90061.0 seconds renders as "1 days, 1 hours, 1 minutes, 1 seconds" |
| DisplayText.Hour12 | code.py:117 | the 12-hour hour is in 1..12 and congruent to the 24-hour hour modulo 12 |
| DisplayText.Hour12Examples | code.py:117 | midnight and noon show 12, 13:00 shows 1, 23:00 shows 11 |
| DisplayText.TimeText | code.py:117-119 | for a valid minute the clock text is four characters: a leading blank exactly for a one-digit 12-hour hour, digits everywhere else (the minute zero-padded) |
| DisplayText.Face | code.py:115-124 | the face from one reading has four characters, and the PM dot is lit exactly from 12:00 |
| DisplayText.ReadClockRoundTrip | code.py:115-124 | reading a face from one reading back as 24-hour time gives that hour and minute |
| DisplayText.FaceAsWritten | code.py:117-121 | the face as drawn from three separate readings still has four characters |
| DisplayText.FaceAsWrittenAtNoon | code.py:117-121 | readings straddling noon draw "1100" with the PM dot, which reads as 23:00 |
| DisplayText.ConditionsText | code.py:133 | `conditions[:4]` is a prefix of the condition text of length min(4, its length) |
| Weather.ConditionCodeShape | code.py:64-74 | the five known conditions become four-character codes that are not condition names; any other name passes unchanged |
| Weather.ConditionCodesDistinct | code.py:64-74 | different known conditions get different codes |
| Weather.Brightness | code.py:82-85 | the level is 1.0 or 0.0, and 1.0 exactly strictly between sunrise and sunset |
| Weather.Refreshed | code.py:60-80 | a successful fetch leaves a report consistent with the payload, remembering it and the fetch time |
| Weather.ConsistentIsRefreshed | code.py:41-87 | a consistent report is determined by its payload and fetch time |
| Clock.LoopAt | code.py:189-196 | after any number of ticks every counter is below its period and the display slot is 0 or 1 |
| Clock.LoopAtClosedForm | code.py:243-270 | after `n` ticks the colon is lit iff `n` is even, the slot is `(n / 3) % 2`, and each counter is `n` modulo 3, 300 and 86400 |
| Clock.PeriodReached | code.py:253-265 | the weather and day counters reach their periods exactly on the tick that makes the count a multiple of 300 and of 86400 |
| Clock.ConditionsScreen | code.py:132-135 | the face is the prefix of length min(4, n) of the condition text, the colon and PM dot are dark, and the busy dot and brightness are unchanged |
| Clock.UpdatesKeepCoherent | code.py:41-100 | the weather fetch and the clock resync both keep the state coherent, successful or not |
| Clock.StagesKeepCoherent | code.py:243-278 | each block of the loop body keeps the state coherent |
| Clock.StagesFrame | code.py:243-278 | each block of the loop body leaves alone what it does not own (report, sync, screen) |
| Clock.IterateLoop | code.py:245-270 | within range, one pass advances the loop variables by exactly one tick (or not at all), resyncs exactly when the day counter reaches 86400 and refreshes exactly when the weather counter reaches 300 |
| Clock.IterateCoherent | code.py:243-278 | one pass keeps the state coherent |
| Clock.IterateSchedule | code.py:243-270 | from the state after `n` ticks, one pass gives the state after `n + 1` (or `n`) ticks; it resyncs iff the new count is a multiple of 86400 and refreshes iff it is a multiple of 300 |
| Clock.IterateSync | code.py:252-255 | the clock changes only on a resync whose request succeeds, at the offset of the report before the pass |
| Clock.IterateWeather | code.py:262-266 | the report changes only on a refresh whose fetch succeeds; a failed refresh leaves the busy dot lit; the brightness follows the new report |
| Clock.IterateShows | code.py:268-278 | the temperature is shown exactly in slot 1 outside quiet hours, the freshly fetched one; otherwise the time, with the loop's colon and the PM dot after 11:59 |
| Clock.IterateWithinRange | code.py:268-270 | after the reset the display slot is 0 or 1 |
| Clock.StartUpOutcomes | code.py:155-196 | start-up fails at the first missing service in order (WiFi, weather, time) and shows its code; success leaves the fetched report, the clock set at the fetched offset, a coherent state and the loop at its start |
| Clock.SegmentClock.constructor | code.py:189-196 | nothing fetched, nothing synchronised, the loop at its start, the state valid |
| Clock.SegmentClock.GetWeather | code.py:41-87 | the report and display end as `WeatherUpdate` of the old state; the result is whether the fetch succeeded |
| Clock.SegmentClock.GetNtpTime | code.py:89-100 | the state ends as `NtpUpdate` of the old state; the result is whether the request at the current offset succeeded |
| Clock.SegmentClock.DisplayTime | code.py:115-124 | the display shows the face of one reading, the loop's colon and the PM dot |
| Clock.SegmentClock.DisplayTemperature | code.py:126-130 | the display shows the temperature with colon and PM dot dark |
| Clock.SegmentClock.DisplayConditions | code.py:132-135 | the display shows the first four characters of the condition code with colon and PM dot dark |
| Clock.SegmentClock.Print | code.py:158 | the display shows the text; nothing else changes |
| Clock.SegmentClock.ResetLoop | code.py:188-196 | the loop variables take their initial values and the tick count restarts |
| Clock.SegmentClock.Start | code.py:155-196 | the state and outcome are `StartUp` of the old state; a successful start restarts the tick count; validity is kept |
| Clock.SegmentClock.CountSecond | code.py:245-250 | a tick flips the colon and advances the three counters and the tick count |
| Clock.SegmentClock.ResyncIfDue | code.py:253-255 | resyncs exactly when the day counter has reached 86400 |
| Clock.SegmentClock.AdvanceSlot | code.py:258-260 | moves to the next display slot exactly when the display counter has reached 3 |
| Clock.SegmentClock.RefreshIfDue | code.py:263-265 | refreshes exactly when the weather counter has reached 300 |
| Clock.SegmentClock.ResetSlot | code.py:269-270 | a slot past the last goes back to the first |
| Clock.SegmentClock.ShowCurrent | code.py:273-278 | the display ends as `ShowSlot` says: the time in slot 0 or in quiet hours, else the temperature in slot 1 |
| Clock.SegmentClock.Step | code.py:243-278 | one pass is `Iterate` of the old state; validity is kept, the tick count advances on a tick, and it resyncs and refreshes exactly when the new count is a multiple of 86400 and of 300 |
| Clock.SegmentClock.Run | code.py:243-279 | over any run of passes, validity is kept, every tick is counted, and the refreshes and resyncs equal the multiples of 300 and 86400 crossed |

## Left out

- Hardware, network set-up and the HTTP server are not modelled: I2C, the display driver, WiFi sockets, SSL and `server.poll()`. The display is the `Display` object's fields. WiFi success is an input to start-up.
- The HTML status page (code.py:198-240) only reads state and formats it. Its time and uptime pieces are modelled (`getFormattedTime`, `getUptime`); the page itself, CPU and heap figures are not.
- Network replies are inputs. A weather fetch is `Option<WeatherPayload>`. A time request is a function from the offset in hours to `Option<int>`, so the offset it is asked at is visible.
- Malformed JSON is not modelled: a reply that lacks `weather[0].main`, `dt`, `sys`, `main.temp` or `timezone`. In the source those reads (code.py:64-80) sit outside the `try` and would raise.
- Which NTP client call fails is not modelled. `adafruit_ntp` is not part of this model; a request is taken to either answer or fail inside the `try`. Failures at code.py:97, outside the `try`, are not modelled.
- Time is not computed. `time.localtime()`, the epoch-to-calendar conversion and the real-time clock's own ticking are outside the model; each loop pass receives one calendar reading, a weather fetch time and a boolean "a second passed". That boolean stands for `time.monotonic() - last_monotonic >= 1`. The float monotonic clock and its drift are not modelled.
- `Clock.SegmentClock.DisplayTemperature`: the face holds the temperature value; the `"{:4.0f}"` float rendering is not modelled.
- Sleeping and `supervisor.reload()` after a start-up failure are not modelled. Start-up ends with a `Fatal` outcome instead.
- `setBrightness` (code.py:33-39) is not modelled. It is defined, but both calls are commented out. `getWeather` sets the brightness itself.
- Float arithmetic is modelled with exact reals. This covers the uptime and `timezone / 3600`; rounding is not modelled.
- The weather globals are assigned one by one in `getWeather`. Nothing reads them in between, so the lemmas treat the report as one value (`Weather.Snapshot`); the methods still assign field by field.
- `Clock.SegmentClock.DisplayTime` models the corrected face, from one reading of the local time. The face as written, from three readings, is `DisplayText.FaceAsWritten` (see Findings).

## Findings

| source | as written | input that shows it | evidently intended | confidence | as-written member | corrected member |
|---|---|---|---|---|---|---|
| code.py:117-121 | the hour, the minute and the PM dot each come from a separate `time.localtime()` call | readings 11:59:59, then 12:00:00 twice, draw "1100" with the PM dot lit, which reads as 23:00 | one reading of the local time for the whole face, so the face reads back as that reading's hour and minute | low, not executed | DisplayText.FaceAsWrittenAtNoon | DisplayText.ReadClockRoundTrip |
