/**
 * Do-not-disturb: outside the active window the appliance shows only the time.
 * The window opens at 06:30 on weekdays and at 07:30 on Saturday and Sunday,
 * and closes after 22:00 (22:00 itself is still inside the window).
 */
module QuietHours {
  import opened TimeFormat

  const WeekdayOpen := 630
  const WeekendOpen := 730
  const Close := 2200

  /** The local time read as the decimal number HHMM. */
  function ClockNumber(t: CalendarTime): nat { t.hour * 100 + t.min }

  predicate IsDoNotDisturb(t: CalendarTime)
  {
    var open := if t.wday < 5 then WeekdayOpen else WeekendOpen;
    var hhmm := ClockNumber(t);
    !(hhmm >= open && hhmm <= Close)
  }

  /** The opening time of the window as minutes after midnight. */
  function OpeningMinute(wday: nat): nat { if wday < 5 then 6 * 60 + 30 else 7 * 60 + 30 }

  /**
   * The same rule in minutes after midnight: the display is active exactly
   * from the opening minute through 22:00 inclusive, and quiet at every other
   * minute of the day.
   */
  lemma {:induction false} DoNotDisturbWindow(t: CalendarTime)
    requires t.hour < 24 && t.min < 60
    ensures !IsDoNotDisturb(t) <==> OpeningMinute(t.wday) <= t.hour * 60 + t.min <= 22 * 60
  {
    if t.hour <= 5 {
      assert t.hour * 100 + t.min < 600 && t.hour * 60 + t.min < 360;
    } else if t.hour == 6 || t.hour == 7 {
    } else if t.hour < 22 {
      assert t.hour * 100 + t.min >= 800 && t.hour * 60 + t.min >= 480;
      assert t.hour * 100 + t.min < 2200 && t.hour * 60 + t.min < 1320;
    } else {
      assert t.hour * 100 + t.min >= 2200 && t.hour * 60 + t.min >= 1320;
    }
  }

  /** The edges of the window: both ends belong to it, the minutes beside them do not. */
  lemma WindowEdges(y: nat, mon: nat, mday: nat, sec: nat)
    ensures !IsDoNotDisturb(CalendarTime(y, mon, mday, 6, 30, sec, 0))
    ensures IsDoNotDisturb(CalendarTime(y, mon, mday, 6, 29, sec, 4))
    ensures !IsDoNotDisturb(CalendarTime(y, mon, mday, 7, 30, sec, 5))
    ensures IsDoNotDisturb(CalendarTime(y, mon, mday, 7, 29, sec, 6))
    ensures IsDoNotDisturb(CalendarTime(y, mon, mday, 6, 45, sec, 6))
    ensures !IsDoNotDisturb(CalendarTime(y, mon, mday, 22, 0, sec, 2))
    ensures IsDoNotDisturb(CalendarTime(y, mon, mday, 22, 1, sec, 2))
    ensures IsDoNotDisturb(CalendarTime(y, mon, mday, 0, 0, sec, 3))
  {
  }
}
