/**
  `strftime('%H:%M:%S')` of a timestamp. A timestamp is a number of seconds,
  possibly fractional, counted from a local midnight; the clock reading is the
  whole second of the day it falls in.
 */
module Clock {
  import opened Text

  const SecondsPerDay: nat := 86400

  /** The whole second of the day a timestamp falls in. */
  function SecondOfDay(t: real): (s: nat)
    ensures s < SecondsPerDay
  {
    t.Floor % SecondsPerDay
  }

  function TwoDigits(n: nat): (r: string)
    requires n < 100
    ensures |r| == 2 && IsDigit(r[0]) && IsDigit(r[1])
    ensures DigitsValue(r) == n
  {
    var r := [DigitChar(n / 10), DigitChar(n % 10)];
    assert DigitValue(r[0]) == n / 10 && DigitValue(r[1]) == n % 10;
    assert r[..1] == [r[0]] && [r[0]][..0] == [];
    assert DigitsValue(r[..1]) == n / 10;
    r
  }

  /** Shape of an `HH:MM:SS` reading. */
  predicate IsReading(r: string) {
    && |r| == 8 && r[2] == ':' && r[5] == ':'
    && forall k | 0 <= k < 8 && k != 2 && k != 5 :: IsDigit(r[k])
  }

  /** The second of the day an `HH:MM:SS` reading denotes. */
  function ReadingValue(r: string): nat
    requires IsReading(r)
  {
    DigitsValue(r[0..2]) * 3600 + DigitsValue(r[3..5]) * 60 + DigitsValue(r[6..8])
  }

  /** The `HH:MM:SS` reading of a timestamp. */
  function HhMmSs(t: real): (r: string)
    ensures |r| == 8
  {
    var s := SecondOfDay(t);
    TwoDigits(s / 3600) + ":" + TwoDigits(s / 60 % 60) + ":" + TwoDigits(s % 60)
  }

  /** The reading of a timestamp is well formed, its hours are below 24 and
      its minutes and seconds below 60, and reading it back gives the second
      of the day the timestamp falls in. */
  lemma HhMmSsReading(t: real)
    ensures IsReading(HhMmSs(t))
    ensures var r := HhMmSs(t);
      DigitsValue(r[0..2]) < 24 && DigitsValue(r[3..5]) < 60 && DigitsValue(r[6..8]) < 60
    ensures ReadingValue(HhMmSs(t)) == SecondOfDay(t)
  {
    var s := SecondOfDay(t);
    var hh, mm, ss := TwoDigits(s / 3600), TwoDigits(s / 60 % 60), TwoDigits(s % 60);
    var r := HhMmSs(t);
    assert r == hh + ":" + mm + ":" + ss;
    assert r[0..2] == hh && r[3..5] == mm && r[6..8] == ss;
    SplitSeconds(s);
  }

  /** A second of the day is its hours, minutes and seconds recombined. */
  lemma SplitSeconds(s: nat)
    ensures (s / 3600) * 3600 + (s / 60 % 60) * 60 + s % 60 == s
  {
    var m := s / 60;
    assert s == m * 60 + s % 60;
    assert m == (m / 60) * 60 + m % 60;
    assert m / 60 == s / 3600;
  }
}
