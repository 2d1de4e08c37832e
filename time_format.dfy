/**
 * The calendar breakdown of an instant (the fields of `time.localtime`) and
 * its rendering as `YYYY-MM-DD HH:MM:SS` on the status page.
 */
module TimeFormat {
  import opened Text

  /** The fields of a `struct_time` the appliance reads; `wday` is 0 for Monday. */
  datatype CalendarTime = CalendarTime(
    year: nat, mon: nat, mday: nat, hour: nat, min: nat, sec: nat, wday: nat)

  predicate ValidTime(t: CalendarTime)
  {
    1 <= t.mon <= 12 && 1 <= t.mday <= 31 && t.hour < 24 && t.min < 60 && t.sec <= 61 && t.wday < 7
  }

  /** The year in full, every other field zero-padded to two digits. */
  function FormatTime(t: CalendarTime): (s: string)
  {
    NatToString(t.year) + "-" + ZeroPad2(t.mon) + "-" + ZeroPad2(t.mday) + " "
      + ZeroPad2(t.hour) + ":" + ZeroPad2(t.min) + ":" + ZeroPad2(t.sec)
  }

  /** Reads a rendered time back: the last 15 characters have a fixed layout, the year is the rest. */
  function ParseFormatted(s: string): (fields: (nat, nat, nat, nat, nat, nat))
    requires |s| >= 15
  {
    var n := |s|;
    (ParseDigits(s[..n - 15]), ParseDigits(s[n - 14..n - 12]), ParseDigits(s[n - 11..n - 9]),
     ParseDigits(s[n - 8..n - 6]), ParseDigits(s[n - 5..n - 3]), ParseDigits(s[n - 2..]))
  }

  /** The separators of the layout, counted from the end of the text. */
  predicate HasLayout(s: string)
  {
    |s| >= 16 && s[|s| - 15] == '-' && s[|s| - 12] == '-' && s[|s| - 9] == ' '
    && s[|s| - 6] == ':' && s[|s| - 3] == ':'
  }

  /** Where each two-character field sits in `y-a-b c:d:e`. */
  lemma LayoutSlices(y: string, a: string, b: string, c: string, d: string, e: string)
    requires |a| == 2 && |b| == 2 && |c| == 2 && |d| == 2 && |e| == 2
    ensures var s := y + "-" + a + "-" + b + " " + c + ":" + d + ":" + e;
      var n := |s|;
      n == |y| + 15 && s[..n - 15] == y
      && s[n - 14..n - 12] == a && s[n - 11..n - 9] == b && s[n - 8..n - 6] == c
      && s[n - 5..n - 3] == d && s[n - 2..] == e
      && s[n - 15] == '-' && s[n - 12] == '-' && s[n - 9] == ' ' && s[n - 6] == ':' && s[n - 3] == ':'
  {
    var tail := "-" + a + "-" + b + " " + c + ":" + d + ":" + e;
    var s := y + "-" + a + "-" + b + " " + c + ":" + d + ":" + e;
    assert s == y + tail;
    var n := |s|;
    assert s[n - 15..] == tail;
    assert tail[1..3] == a && tail[4..6] == b && tail[7..9] == c && tail[10..12] == d && tail[13..] == e;
  }

  lemma FormatTimeShape(t: CalendarTime)
    requires ValidTime(t)
    ensures |FormatTime(t)| == |NatToString(t.year)| + 15
    ensures HasLayout(FormatTime(t))
    ensures ParseFormatted(FormatTime(t)) == (t.year, t.mon, t.mday, t.hour, t.min, t.sec)
    ensures var s := FormatTime(t); var n := |s|;
      forall i | n - 15 <= i < n && i != n - 15 && i != n - 12 && i != n - 9 && i != n - 6 && i != n - 3 :: IsDigit(s[i])
  {
    LayoutSlices(NatToString(t.year), ZeroPad2(t.mon), ZeroPad2(t.mday), ZeroPad2(t.hour),
      ZeroPad2(t.min), ZeroPad2(t.sec));
    ParseNatToString(t.year);
  }

  /** With a four-digit year the rendering is exactly 19 characters, `YYYY-MM-DD HH:MM:SS`. */
  lemma FourDigitYear(t: CalendarTime)
    requires ValidTime(t) && 1000 <= t.year <= 9999
    ensures |FormatTime(t)| == 19
    ensures var s := FormatTime(t);
      s[4] == '-' && s[7] == '-' && s[10] == ' ' && s[13] == ':' && s[16] == ':'
  {
    assert Pow10(3) == 1000 && Pow10(4) == 10000;
    NatToStringLength(t.year, 4);
    FormatTimeShape(t);
  }
}
