/**
 * `formatDuration` from the home feed: a duration in seconds is added to a
 * Date at the epoch with `setSeconds`, and the time part of the date's ISO
 * string is cut out, as "HH:MM:SS" from one hour on and as "MM:SS" below.
 */
module Home {
  import opened Js

  /** The argument as JavaScript sees it: not a number at all, NaN, an
      infinity, or a finite number. */
  datatype Seconds = NotANumber | NaN | Infinite | Finite(x: real)

  /** The time values whose ISO string still has a four-digit year
      (0000-01-01T00:00:00Z through 9999-12-31T23:59:59Z), in seconds from
      the epoch: where `substring(11, 19)` and `substring(14, 19)` land on
      the time of day. */
  const MinSeconds: int := -62167219200
  const MaxSeconds: int := 253402300799

  /** `ToIntegerOrInfinity` on a finite number: truncation toward zero, the
      conversion `setSeconds` applies to its argument. */
  function Truncate(x: real): (n: int)
    ensures 0.0 <= x ==> n as real <= x < n as real + 1.0
    ensures x < 0.0 ==> n as real - 1.0 < x <= n as real
  {
    if x >= 0.0 then x.Floor else -((-x).Floor)
  }

  /** Two decimal digits with a leading zero. */
  function Pad2(n: nat): (r: string)
    requires n < 100
    ensures |r| == 2 && '0' <= r[0] <= '9' && '0' <= r[1] <= '9'
  {
    [DigitChar(n / 10), DigitChar(n % 10)]
  }

  /** The value of two decimal digits. */
  function Digits2(t: string): int
    requires |t| == 2
  {
    (t[0] as int - '0' as int) * 10 + (t[1] as int - '0' as int)
  }

  /** The UTC time of day `s` seconds after the epoch, as the ISO string
      spells it: hours, minutes, seconds. */
  function Hours(s: int): nat { (s / 3600) % 24 }
  function Minutes(s: int): nat { (s / 60) % 60 }
  function Secs(s: int): nat { s % 60 }

  function FormatDuration(seconds: Seconds): (r: Option<string>)
    requires seconds.Finite? ==> MinSeconds <= Truncate(seconds.x) <= MaxSeconds
    ensures r.None? <==> seconds.Infinite?
    ensures seconds.NotANumber? || seconds.NaN? ==> r == Some("0:00")
  {
    match seconds
    case NotANumber => Some("0:00")
    case NaN => Some("0:00")
    case Infinite => None
    case Finite(x) =>
      var s := Truncate(x);
      if x >= 3600.0 then Some(Pad2(Hours(s)) + ":" + Pad2(Minutes(s)) + ":" + Pad2(Secs(s)))
      else Some(Pad2(Minutes(s)) + ":" + Pad2(Secs(s)))
  }

  /** Reads back "MM:SS" or "HH:MM:SS" as a number of seconds. */
  function ClockValue(t: string): int {
    if |t| == 5 then Digits2(t[0..2]) * 60 + Digits2(t[3..5])
    else if |t| == 8 then Digits2(t[0..2]) * 3600 + Digits2(t[3..5]) * 60 + Digits2(t[6..8])
    else 0
  }

  lemma Pad2Value(n: nat)
    requires n < 100
    ensures Digits2(Pad2(n)) == n
  {
  }

  /** A whole number of seconds from 0 to 3599 prints as "MM:SS": the
      whole minutes, then the seconds left over (each below 60), so the
      text reads back as itself. */
  lemma ShortDurationRoundTrip(s: nat)
    requires s < 3600
    ensures var r := FormatDuration(Finite(s as real));
            r.Some? && |r.value| == 5 && r.value[2] == ':'
            && Digits2(r.value[0..2]) == s / 60 && Digits2(r.value[3..5]) == s % 60
            && ClockValue(r.value) == s
  {
    var t := FormatDuration(Finite(s as real)).value;
    assert Truncate(s as real) == s;
    assert t == Pad2(Minutes(s)) + ":" + Pad2(Secs(s));
    assert t[0..2] == Pad2(Minutes(s)) && t[3..5] == Pad2(Secs(s));
    Pad2Value(Minutes(s));
    Pad2Value(Secs(s));
    assert Minutes(s) == s / 60;
  }

  /** From one hour on the text is "HH:MM:SS": the hour of the day (below
      24), the minute of the hour and the second of the minute (each below
      60), so the hours wrap at a day and the text reads back as the time
      of day, `s mod 86400`. */
  lemma LongDurationRoundTrip(s: nat)
    requires 3600 <= s <= MaxSeconds
    ensures var r := FormatDuration(Finite(s as real));
            r.Some? && |r.value| == 8 && r.value[2] == ':' && r.value[5] == ':'
            && Digits2(r.value[0..2]) == (s / 3600) % 24
            && Digits2(r.value[3..5]) == (s / 60) % 60
            && Digits2(r.value[6..8]) == s % 60
            && ClockValue(r.value) == s % 86400
  {
    var t := FormatDuration(Finite(s as real)).value;
    assert Truncate(s as real) == s;
    assert t == Pad2(Hours(s)) + ":" + Pad2(Minutes(s)) + ":" + Pad2(Secs(s));
    assert t[0..2] == Pad2(Hours(s)) && t[3..5] == Pad2(Minutes(s)) && t[6..8] == Pad2(Secs(s));
    Pad2Value(Hours(s));
    Pad2Value(Minutes(s));
    Pad2Value(Secs(s));
    DayDecomposition(s);
  }

  lemma DayDecomposition(s: nat)
    ensures Hours(s) * 3600 + Minutes(s) * 60 + Secs(s) == s % 86400
  {
    var d, h, m, x := s / 86400, Hours(s), Minutes(s), Secs(s);
    assert s / 3600 == d * 24 + h by {
      assert s == d * 86400 + s % 86400;
      assert s / 3600 == (d * 86400 + s % 86400) / 3600;
    }
    assert s / 60 == (s / 3600) * 60 + m;
    assert s == (s / 60) * 60 + x;
  }

  /** A day later prints the same, from one hour on. */
  lemma LongDurationWrapsAtOneDay(s: nat)
    requires 3600 <= s && s + 86400 <= MaxSeconds
    ensures FormatDuration(Finite((s + 86400) as real)) == FormatDuration(Finite(s as real))
  {
    assert Truncate(s as real) == s;
    assert Truncate((s + 86400) as real) == s + 86400;
    ShiftByDay(s);
  }

  lemma ShiftByDay(s: int)
    ensures Hours(s + 86400) == Hours(s)
    ensures Minutes(s + 86400) == Minutes(s)
    ensures Secs(s + 86400) == Secs(s)
  {
    QuotientShift(s, 3600, 24);
    QuotientShift(s, 60, 1440);
    QuotientShift(s, 1, 86400);
  }

  /** Adding `k` whole units of `unit` seconds adds `k` to the quotient. */
  lemma QuotientShift(s: int, unit: int, k: int)
    requires unit in {1, 60, 3600} && unit * k == 86400
    ensures (s + 86400) / unit == s / unit + k
    ensures (s + 86400) % unit == s % unit
  {
    var q, r := s / unit, s % unit;
    assert s == q * unit + r && 0 <= r < unit;
    assert s + 86400 == (q + k) * unit + r;
  }

  /** Every number in range prints as five or eight characters; anything
      that is not a number prints as the four characters "0:00". */
  lemma FormatDurationLength(seconds: Seconds)
    requires seconds.Finite? ==> MinSeconds <= Truncate(seconds.x) <= MaxSeconds
    ensures var r := FormatDuration(seconds);
            seconds.Finite? ==> r.Some? && (|r.value| == 5 <==> seconds.x < 3600.0)
                                && (|r.value| == 8 <==> seconds.x >= 3600.0)
    ensures !seconds.Finite? && !seconds.Infinite? ==> |FormatDuration(seconds).value| == 4
  {
  }

  /** Durations below an hour: fractions are cut off, and a negative
      duration shows the time of day before the epoch. */
  lemma FormatDurationExamples()
    ensures FormatDuration(Finite(0.0)) == Some("00:00")
    ensures FormatDuration(Finite(125.9)) == Some("02:05")
    ensures FormatDuration(Finite(-5.0)) == Some("59:55")
  {
    ShortExample(0.0, 0, "00", "00");
    ShortExample(125.9, 125, "02", "05");
    ShortExample(-5.0, -5, "59", "55");
    assert "00" + ":" + "00" == "00:00";
    assert "02" + ":" + "05" == "02:05";
    assert "59" + ":" + "55" == "59:55";
  }

  /** Durations from an hour on: a whole day wraps back to midnight. */
  lemma FormatLongDurationExamples()
    ensures FormatDuration(Finite(3661.0)) == Some("01:01:01")
    ensures FormatDuration(Finite(90000.0)) == Some("01:00:00")
  {
    LongExample(3661.0, 3661, "01", "01", "01");
    LongExample(90000.0, 90000, "01", "00", "00");
    assert "01" + ":" + "01" + ":" + "01" == "01:01:01";
    assert "01" + ":" + "00" + ":" + "00" == "01:00:00";
  }

  lemma ShortExample(x: real, s: int, mm: string, ss: string)
    requires MinSeconds <= s <= MaxSeconds && x < 3600.0 && Truncate(x) == s
    requires Pad2(Minutes(s)) == mm && Pad2(Secs(s)) == ss
    ensures FormatDuration(Finite(x)) == Some(mm + ":" + ss)
  {
  }

  lemma LongExample(x: real, s: int, hh: string, mm: string, ss: string)
    requires MinSeconds <= s <= MaxSeconds && x >= 3600.0 && Truncate(x) == s
    requires Pad2(Hours(s)) == hh && Pad2(Minutes(s)) == mm && Pad2(Secs(s)) == ss
    ensures FormatDuration(Finite(x)) == Some(hh + ":" + mm + ":" + ss)
  {
  }
}
