/**
 * What the four-character segment display shows for the time of day and for
 * the weather conditions.
 */
module DisplayText {
  import opened Text
  import opened TimeFormat

  /** The 12-hour clock hour shown for a 24-hour `hour`: `(hour + 11) % 12 + 1`. */
  function Hour12(hour: nat): (h: nat)
    ensures 1 <= h <= 12
    ensures h % 12 == hour % 12
  {
    (hour + 11) % 12 + 1
  }

  lemma Hour12Examples()
    ensures Hour12(0) == 12 && Hour12(12) == 12 && Hour12(13) == 1 && Hour12(23) == 11 && Hour12(1) == 1
  {
  }

  /** The hour right-justified to width 2, then the minute zero-padded to 2. */
  function TimeText(hour: nat, minute: nat): (s: string)
    ensures minute < 60 ==> |s| == 4
    ensures minute < 60 ==>
      && (s[0] == ' ' <==> Hour12(hour) < 10)
      && (forall i | 1 <= i < 4 :: IsDigit(s[i]))
  {
    RightJustify2(Hour12(hour)) + ZeroPad2(minute)
  }

  /** The top-left dot marks the afternoon. */
  predicate PmDot(hour: nat) { hour > 11 }

  /** What the clock face shows: the digits and whether the PM dot is lit. */
  datatype TimeFace = TimeFace(text: string, pm: bool)

  /** The face drawn from one reading of the local time. */
  function Face(t: CalendarTime): (f: TimeFace)
    ensures t.min < 60 ==> |f.text| == 4
    ensures f.pm <==> t.hour >= 12
  {
    TimeFace(TimeText(t.hour, t.min), PmDot(t.hour))
  }

  /** How a person reads a four-character face with its PM dot back as a 24-hour time. */
  function ReadClock(f: TimeFace): (hm: (nat, nat))
    requires |f.text| == 4
  {
    (ParseDigits(f.text[..2]) % 12 + (if f.pm then 12 else 0), ParseDigits(f.text[2..]))
  }

  /** A face drawn from one reading loses nothing: reading it back gives that hour and minute. */
  lemma ReadClockRoundTrip(t: CalendarTime)
    requires t.hour < 24 && t.min < 60
    ensures ReadClock(Face(t)) == (t.hour, t.min)
  {
    var f := Face(t);
    assert f.text[..2] == RightJustify2(Hour12(t.hour));
    assert f.text[2..] == ZeroPad2(t.min);
  }

  /**
   * The face as `displayTime` draws it: the hour, the minute and the PM dot
   * each come from a separate call to `time.localtime()`.
   */
  function FaceAsWritten(hourReading: CalendarTime, minuteReading: CalendarTime, dotReading: CalendarTime): (f: TimeFace)
    ensures minuteReading.min < 60 ==> |f.text| == 4
  {
    TimeFace(TimeText(hourReading.hour, minuteReading.min), PmDot(dotReading.hour))
  }

  /**
   * Readings that straddle noon (11:59:59, then 12:00:00 twice) give the face
   * "1100" with the PM dot lit, which reads as 23:00, eleven hours from both.
   */
  lemma FaceAsWrittenAtNoon(y: nat, mon: nat, mday: nat, wday: nat)
    ensures var before := CalendarTime(y, mon, mday, 11, 59, 59, wday);
      var after := CalendarTime(y, mon, mday, 12, 0, 0, wday);
      var f := FaceAsWritten(before, after, after);
      f == TimeFace("1100", true) && ReadClock(f) == (23, 0)
  {
    var f := FaceAsWritten(CalendarTime(y, mon, mday, 11, 59, 59, wday),
      CalendarTime(y, mon, mday, 12, 0, 0, wday), CalendarTime(y, mon, mday, 12, 0, 0, wday));
    assert NatToString(11) == "11";
    assert f.text == "1100";
    assert ParseDigits("11") == 11;
    assert f.text[2..] == "00";
    assert ParseDigits("00") == 0;
  }

  /** `conditions[:4]`: at most the first four characters. */
  function ConditionsText(conditions: string): (s: string)
    ensures |s| == if |conditions| < 4 then |conditions| else 4
    ensures s <= conditions
  {
    if |conditions| < 4 then conditions else conditions[..4]
  }
}
