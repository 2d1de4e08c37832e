/**
 * Uptime as "{d} days, {h} hours, {m} minutes, {s} seconds". The count of
 * seconds is a float in the appliance; each part is `int(x / k)` of what the
 * larger parts leave, and `int` truncates toward zero.
 */
module Uptime {
  import opened Text

  /** Python's `int(x)` on a float: the integer part, truncated toward zero. */
  function Trunc(x: real): (i: int)
    ensures x >= 0.0 ==> i as real <= x < i as real + 1.0
    ensures x < 0.0 ==> i as real - 1.0 < x <= i as real
  {
    if x >= 0.0 then x.Floor else -((-x).Floor)
  }

  datatype Duration = Duration(days: int, hours: int, minutes: int, seconds: int)

  function UptimeParts(uptime: real): Duration
  {
    var days := Trunc(uptime / 86400.0);
    var hours := Trunc((uptime - (days * 86400) as real) / 3600.0);
    var minutes := Trunc((uptime - (days * 86400) as real - (hours * 3600) as real) / 60.0);
    var seconds := Trunc(uptime - (days * 86400) as real - (hours * 3600) as real - (minutes * 60) as real);
    Duration(days, hours, minutes, seconds)
  }

  function FormatUptime(uptime: real): string
  {
    var d := UptimeParts(uptime);
    IntToString(d.days) + " days, " + IntToString(d.hours) + " hours, "
      + IntToString(d.minutes) + " minutes, " + IntToString(d.seconds) + " seconds"
  }

  /** The parts of a well-formed duration, in whole seconds. */
  function TotalSeconds(d: Duration): int
  {
    d.days * 86400 + d.hours * 3600 + d.minutes * 60 + d.seconds
  }

  predicate InRange(d: Duration)
  {
    0 <= d.days && 0 <= d.hours < 24 && 0 <= d.minutes < 60 && 0 <= d.seconds < 60
  }

  /** Truncating `x / k` for `x >= 0` is dividing the whole seconds of `x` by `k`. */
  lemma TruncDiv(x: real, k: nat)
    requires x >= 0.0 && k > 0
    ensures Trunc(x / k as real) == x.Floor / k
  {
    var n, kr := x.Floor, k as real;
    var q, y := n / k, x / kr;
    assert y * kr == x;
    assert q * k <= n < q * k + k;
    CastMul(q, k);
    CastMul(q + 1, k);
    assert q as real * kr <= x;
    assert x < (q + 1) as real * kr;
    ScaleDown(0.0, y, kr);
    ScaleDown(q as real, y, kr);
    ScaleDown(y, (q + 1) as real, kr);
    assert q as real <= y < q as real + 1.0;
  }

  lemma {:induction false} CastMul(a: int, b: nat)
    ensures (a * b) as real == a as real * b as real
  {
    if b > 0 {
      CastMul(a, b - 1);
      assert a * b == a * (b - 1) + a;
      assert a as real * b as real == a as real * (b - 1) as real + a as real;
    }
  }

  lemma ScaleDown(a: real, b: real, k: real)
    requires k > 0.0
    ensures a * k <= b * k ==> a <= b
    ensures a * k < b * k ==> a < b
  {
    assert (b - a) * k == b * k - a * k;
  }

  lemma TruncShift(x: real, m: int)
    requires x >= 0.0 && x - m as real >= 0.0
    ensures (x - m as real).Floor == x.Floor - m
  {
  }

  /**
   * For a non-negative uptime the parts are a proper days/hours/minutes/seconds
   * split of its whole seconds.
   */
  lemma UptimeSplits(uptime: real)
    requires uptime >= 0.0
    ensures InRange(UptimeParts(uptime))
    ensures TotalSeconds(UptimeParts(uptime)) == uptime.Floor
  {
    var n := uptime.Floor;
    var days := Trunc(uptime / 86400.0);
    TruncDiv(uptime, 86400);
    assert days == n / 86400;
    var r1 := uptime - (days * 86400) as real;
    TruncShift(uptime, days * 86400);
    assert r1.Floor == n % 86400;
    var hours := Trunc(r1 / 3600.0);
    TruncDiv(r1, 3600);
    assert hours == (n % 86400) / 3600;
    var r2 := uptime - (days * 86400) as real - (hours * 3600) as real;
    assert r2 == r1 - (hours * 3600) as real;
    TruncShift(r1, hours * 3600);
    assert r2.Floor == (n % 86400) % 3600;
    var minutes := Trunc(r2 / 60.0);
    TruncDiv(r2, 60);
    var r3 := uptime - (days * 86400) as real - (hours * 3600) as real - (minutes * 60) as real;
    assert r3 == r2 - (minutes * 60) as real;
    TruncShift(r2, minutes * 60);
    assert UptimeParts(uptime) == Duration(days, hours, minutes, r3.Floor);
  }

  /** The split is the only one: any in-range split of the same seconds is the one rendered. */
  lemma UptimeSplitUnique(uptime: real, d: Duration)
    requires uptime >= 0.0
    requires InRange(d) && TotalSeconds(d) == uptime.Floor
    ensures UptimeParts(uptime) == d
  {
    UptimeSplits(uptime);
    var e := UptimeParts(uptime);
    var n := uptime.Floor;
    var rd := d.hours * 3600 + d.minutes * 60 + d.seconds;
    var re := e.hours * 3600 + e.minutes * 60 + e.seconds;
    assert 0 <= rd < 86400 && 0 <= re < 86400;
    assert d.days == n / 86400 && e.days == n / 86400;
    assert d.hours == rd / 3600 && e.hours == re / 3600;
  }

  lemma UptimeExample()
    ensures FormatUptime(90061.0) == "1 days, 1 hours, 1 minutes, 1 seconds"
  {
    UptimeSplitUnique(90061.0, Duration(1, 1, 1, 1));
    OneOfEach();
  }

  lemma OneOfEach()
    ensures IntToString(1) + " days, " + IntToString(1) + " hours, " + IntToString(1) + " minutes, "
      + IntToString(1) + " seconds" == "1 days, 1 hours, 1 minutes, 1 seconds"
  {
    assert IntToString(1) == "1";
    assert "1" + " days, " == "1 days, ";
    assert "1 days, " + "1" == "1 days, 1";
    assert "1 days, 1" + " hours, " == "1 days, 1 hours, ";
    assert "1 days, 1 hours, " + "1" == "1 days, 1 hours, 1";
    assert "1 days, 1 hours, 1" + " minutes, " == "1 days, 1 hours, 1 minutes, ";
    assert "1 days, 1 hours, 1 minutes, " + "1" == "1 days, 1 hours, 1 minutes, 1";
  }
}
