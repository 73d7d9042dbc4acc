/**
 * Wall-clock fields of an Outlook appointment and the two strftime layouts
 * the report uses for them: '%Y-%m-%d' for the day and '%H:%M' for a time.
 * Each layout is a fixed-width, zero-padded rendering of the fields; the
 * parse functions read the fields back, which shows the rendering loses
 * nothing.
 */
module TimeFormat {

  // The ranges a Python datetime guarantees for these fields.
  type Year = y: int | 1 <= y <= 9999 witness 1
  type Month = m: int | 1 <= m <= 12 witness 1
  type Day = d: int | 1 <= d <= 31 witness 1
  type Hour = h: int | 0 <= h < 24
  type Minute = m: int | 0 <= m < 60

  /** A local date and time, in the appointment's own time zone. */
  datatype DateTime = DateTime(year: Year, month: Month, day: Day, hour: Hour, minute: Minute)

  function Pow10(n: nat): (p: nat)
    ensures p >= 1
  {
    if n == 0 then 1 else 10 * Pow10(n - 1)
  }

  function DigitChar(d: int): (c: char)
    requires 0 <= d < 10
    ensures '0' <= c <= '9'
  {
    (d + '0' as int) as char
  }

  /** The decimal value of a string of digits, most significant first. */
  function DecimalValue(s: string): int
  {
    if s == [] then 0 else 10 * DecimalValue(s[..|s| - 1]) + (s[|s| - 1] as int - '0' as int)
  }

  /** `n` written in exactly `width` decimal digits, padded with leading zeros. */
  function ZeroPadded(n: nat, width: nat): (s: string)
    requires n < Pow10(width)
    ensures |s| == width
    ensures forall i :: 0 <= i < |s| ==> '0' <= s[i] <= '9'
  {
    if width == 0 then [] else ZeroPadded(n / 10, width - 1) + [DigitChar(n % 10)]
  }

  lemma {:induction false} ZeroPaddedRoundTrip(n: nat, width: nat)
    requires n < Pow10(width)
    ensures DecimalValue(ZeroPadded(n, width)) == n
  {
    if width > 0 {
      var s := ZeroPadded(n, width);
      assert s[..|s| - 1] == ZeroPadded(n / 10, width - 1);
      ZeroPaddedRoundTrip(n / 10, width - 1);
    }
  }

  /** strftime('%Y-%m-%d'). */
  function FormatDay(d: DateTime): (s: string)
    ensures |s| == 10 && s[4] == '-' && s[7] == '-'
    ensures forall i :: 0 <= i < 10 && i != 4 && i != 7 ==> '0' <= s[i] <= '9'
  {
    ZeroPadded(d.year, 4) + "-" + ZeroPadded(d.month, 2) + "-" + ZeroPadded(d.day, 2)
  }

  /** strftime('%H:%M'). */
  function FormatClock(d: DateTime): (s: string)
    ensures |s| == 5 && s[2] == ':'
    ensures forall i :: 0 <= i < 5 && i != 2 ==> '0' <= s[i] <= '9'
  {
    ZeroPadded(d.hour, 2) + ":" + ZeroPadded(d.minute, 2)
  }

  function ParseDay(s: string): (int, int, int)
    requires |s| == 10
  {
    (DecimalValue(s[..4]), DecimalValue(s[5..7]), DecimalValue(s[8..]))
  }

  function ParseClock(s: string): (int, int)
    requires |s| == 5
  {
    (DecimalValue(s[..2]), DecimalValue(s[3..]))
  }

  lemma DayRoundTrip(d: DateTime)
    ensures ParseDay(FormatDay(d)) == (d.year as int, d.month as int, d.day as int)
  {
    var y, m, dd := ZeroPadded(d.year, 4), ZeroPadded(d.month, 2), ZeroPadded(d.day, 2);
    var s := FormatDay(d);
    assert s[..4] == y && s[5..7] == m && s[8..] == dd;
    ZeroPaddedRoundTrip(d.year, 4);
    ZeroPaddedRoundTrip(d.month, 2);
    ZeroPaddedRoundTrip(d.day, 2);
  }

  lemma ClockRoundTrip(d: DateTime)
    ensures ParseClock(FormatClock(d)) == (d.hour as int, d.minute as int)
  {
    var h, m := ZeroPadded(d.hour, 2), ZeroPadded(d.minute, 2);
    var s := FormatClock(d);
    assert s[..2] == h && s[3..] == m;
    ZeroPaddedRoundTrip(d.hour, 2);
    ZeroPaddedRoundTrip(d.minute, 2);
  }
}
