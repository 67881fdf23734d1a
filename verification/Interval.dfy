/**
 * Event intervals in an asciicast: rounded to whole milliseconds, with the rounding error carried on.
 * Times are exact real milliseconds.
 */
module Interval {
  import opened Prelude

  /** Longer gaps are cut down so playback skips idle time. */
  const MAX_IDLE: real := 2000.0

  function Clamp(gap: real): real { if gap < MAX_IDLE then gap else MAX_IDLE }

  /** math.Round, which rounds a half away from zero. */
  function Round(x: real): int {
    if x >= 0.0 then (x + 0.5).Floor else -(0.5 - x).Floor
  }

  datatype Rounded = Rounded(ms: int, carry: real)

  function RoundInterval(carry: real, gap: real): Rounded {
    var total := carry + gap;
    Rounded(Round(total), total - Round(total) as real)
  }

  predicate CarryOk(carry: real) { -0.5 <= carry <= 0.5 }

  /** The carry stays within half a millisecond and no time is lost. */
  lemma CarryStaysSmall(carry: real, gap: real)
    ensures CarryOk(RoundInterval(carry, gap).carry)
    ensures RoundInterval(carry, gap).ms as real + RoundInterval(carry, gap).carry == carry + gap
  {
  }

  /** An interval comes out negative exactly when a carry of minus one half meets no gap at all. */
  lemma NegativeInterval(carry: real, gap: real)
    requires CarryOk(carry) && gap >= 0.0
    ensures RoundInterval(carry, gap).ms >= -1
    ensures RoundInterval(carry, gap).ms < 0 <==> carry == -0.5 && gap == 0.0
  {
    var total := carry + gap;
    if total >= 0.0 {
      assert (total + 0.5).Floor >= 0;
    } else {
      assert 0.5 < 0.5 - total <= 1.0;
      assert total > -0.5 ==> (0.5 - total).Floor == 0;
      assert total == -0.5 ==> (0.5 - total).Floor == 1;
    }
  }

  function DigitChar(d: nat): char
    requires d < 10
  {
    '0' + d as char
  }

  /** %03d for a number of at most three digits. The width counts the sign. */
  function Pad3(n: int): string
    requires -1000 < n < 1000
  {
    var m: nat := if n < 0 then -n else n;
    var two := [DigitChar(m / 10 % 10), DigitChar(m % 10)];
    if n >= 0 then [DigitChar(m / 100)] + two
    else if m < 100 then "-" + two
    else ['-', DigitChar(m / 100)] + two
  }

  /** The text "%d.%03d" of whole seconds and milliseconds, with Go's division that truncates toward zero. */
  function Print(ms: int): string {
    var m: nat := if ms < 0 then -ms else ms;
    var sign := if ms < 0 then -1 else 1;
    var seconds := if ms <= -1000 then "-" + Decimal(m / 1000) else Decimal(m / 1000);
    seconds + "." + Pad3(sign * (m % 1000))
  }

  /** A JSON number with exactly three decimals and no sign, what a player reads as an interval. */
  predicate IsInterval(s: string) {
    && |s| >= 5
    && s[|s| - 4] == '.'
    && (forall i :: 0 <= i < |s| && i != |s| - 4 ==> Digit(s[i]))
  }

  function ReadInterval(s: string): nat
    requires IsInterval(s)
  {
    ReadDecimal(s[..|s| - 4]) * 1000
    + DigitValue(s[|s| - 3]) * 100 + DigitValue(s[|s| - 2]) * 10 + DigitValue(s[|s| - 1])
  }

  /** The text is a number, and the number that was meant, exactly when the interval is not negative. */
  lemma PrintRoundTrip(ms: int)
    ensures IsInterval(Print(ms)) <==> ms >= 0
    ensures ms >= 0 ==> ReadInterval(Print(ms)) == ms
  {
    if ms >= 0 { PrintReads(ms); } else { PrintNegative(-ms); }
  }

  lemma PrintReads(ms: nat)
    ensures IsInterval(Print(ms)) && ReadInterval(Print(ms)) == ms
  {
    var s, d := Print(ms), Decimal(ms / 1000);
    var f := Pad3(ms % 1000);
    assert s == d + "." + f && |f| == 3;
    assert s[..|s| - 4] == d && s[|s| - 3..] == f;
    assert s[|s| - 3] == f[0] && s[|s| - 2] == f[1] && s[|s| - 1] == f[2];
    DecimalRoundTrip(ms / 1000);
    DigitsOf(ms % 1000);
  }

  lemma PrintNegative(m: int)
    requires m > 0
    ensures !IsInterval(Print(-m))
  {
    var s, f := Print(-m), Pad3(-(m % 1000));
    if m % 1000 == 0 {
      assert m / 1000 >= 1 && s[0] == '-';
    } else {
      assert s[|s| - |f|] == f[0] == '-';
    }
  }

  lemma DigitsOf(n: nat)
    requires n < 1000
    ensures DigitValue(DigitChar(n / 100)) * 100 + DigitValue(DigitChar(n / 10 % 10)) * 10
            + DigitValue(DigitChar(n % 10)) == n
  {
    DigitChars(n / 100);
    DigitChars(n / 10 % 10);
    DigitChars(n % 10);
  }

  lemma DigitChars(d: nat)
    requires d < 10
    ensures Digit(DigitChar(d)) && DigitValue(DigitChar(d)) == d
  {
  }
}
