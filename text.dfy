/**
 * Decimal rendering as Python's f-strings and str.format produce it for
 * non-negative integers, and reading such text back.
 */
module Text {

  predicate IsDigit(c: char) { '0' <= c <= '9' }

  function Pow10(k: nat): (p: nat)
    ensures p >= 1
  {
    if k == 0 then 1 else 10 * Pow10(k - 1)
  }

  function DigitChar(d: nat): (c: char)
    requires d < 10
    ensures IsDigit(c) && c as int - '0' as int == d
  {
    ('0' as int + d) as char
  }

  /** The value of one display cell; a blank (or any non-digit) cell reads as 0. */
  function DigitValue(c: char): (d: nat)
    ensures d < 10
    ensures IsDigit(c) ==> d == c as int - '0' as int
  {
    if IsDigit(c) then c as int - '0' as int else 0
  }

  /** `str(n)` for a non-negative integer: no sign, no leading zeros. */
  function NatToString(n: nat): (s: string)
    ensures 1 <= |s|
    ensures forall i :: 0 <= i < |s| ==> IsDigit(s[i])
    ensures n < Pow10(|s|)
    ensures |s| > 1 ==> Pow10(|s| - 1) <= n
  {
    if n < 10 then [DigitChar(n)] else NatToString(n / 10) + [DigitChar(n % 10)]
  }

  /** `str(i)`: a minus sign exactly for negative numbers, then the digits of the magnitude. */
  function IntToString(i: int): (s: string)
    ensures 1 <= |s|
    ensures s[0] == '-' <==> i < 0
    ensures forall k | (if i < 0 then 1 else 0) <= k < |s| :: IsDigit(s[k])
    ensures ParseDigits(if i < 0 then s[1..] else s) == if i < 0 then -i else i
  {
    if i < 0 then
      ParseNatToString(-i);
      assert ("-" + NatToString(-i))[1..] == NatToString(-i);
      "-" + NatToString(-i)
    else
      ParseNatToString(i);
      NatToString(i)
  }

  /** Reads a field of digits (blank cells count as 0), most significant first. */
  function ParseDigits(s: string): nat
  {
    if s == [] then 0 else ParseDigits(s[..|s| - 1]) * 10 + DigitValue(s[|s| - 1])
  }

  lemma {:induction false} NatToStringLength(n: nat, k: nat)
    requires 1 <= k
    requires (k == 1 || Pow10(k - 1) <= n) && n < Pow10(k)
    ensures |NatToString(n)| == k
  {
    var s := NatToString(n);
    if |s| < k {
      PowMonotone(|s|, k - 1);
    } else if |s| > k {
      PowMonotone(k, |s| - 1);
    }
  }

  lemma {:induction false} PowMonotone(i: nat, j: nat)
    requires i <= j
    ensures Pow10(i) <= Pow10(j)
  {
    if i < j {
      PowMonotone(i, j - 1);
    }
  }

  lemma {:induction false} ParseNatToString(n: nat)
    ensures ParseDigits(NatToString(n)) == n
  {
    var s := NatToString(n);
    if n < 10 {
      assert s[..0] == [];
    } else {
      assert s[..|s| - 1] == NatToString(n / 10);
      ParseNatToString(n / 10);
    }
  }

  /** A leading '0' or blank does not change the value read. */
  lemma {:induction false} ParseLeadingZero(c: char, s: string)
    requires !IsDigit(c) || c == '0'
    ensures ParseDigits([c] + s) == ParseDigits(s)
  {
    if s == [] {
      assert ([c] + s)[..0] == [];
    } else {
      var t := [c] + s;
      assert t[..|t| - 1] == [c] + s[..|s| - 1];
      ParseLeadingZero(c, s[..|s| - 1]);
    }
  }

  /** `f"{n:02}"`: zero-padded to width 2, wider numbers in full. */
  function ZeroPad2(n: nat): (s: string)
    ensures |s| >= 2 && (n < 100 <==> |s| == 2)
    ensures forall i :: 0 <= i < |s| ==> IsDigit(s[i])
    ensures ParseDigits(s) == n
  {
    ParseNatToString(n);
    if n < 10 then
      ParseLeadingZero('0', NatToString(n));
      "0" + NatToString(n)
    else
      NatToString(n)
  }

  /** `"{:>2}".format(n)`: right-justified in a field of width 2 with blanks. */
  function RightJustify2(n: nat): (s: string)
    ensures |s| >= 2 && (n < 100 <==> |s| == 2)
    ensures IsDigit(s[|s| - 1])
    ensures s[0] == ' ' <==> n < 10
    ensures ParseDigits(s) == n
  {
    ParseNatToString(n);
    if n < 10 then
      ParseLeadingZero(' ', NatToString(n));
      " " + NatToString(n)
    else
      NatToString(n)
  }
}
