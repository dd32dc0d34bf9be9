/**
 * `interval_to_milliseconds`: a Binance interval token such as "15m" or "1w" to
 * its length in milliseconds. The last character is the unit, everything before
 * it is the magnitude; an unknown unit or a magnitude `int()` rejects gives `None`.
 */
module Utilities {
  import opened Wrappers
  import opened Decimal

  /** The smallest unit is a minute, so every interval is a whole number of these. */
  const MinuteMs := 60 * 1000

  /** The table `seconds_per_unit`; lookup is case-sensitive, so `M` (month) is not in it. */
  function SecondsPerUnit(unit: char): (seconds: Option<nat>)
    ensures seconds.Some? <==> unit == 'm' || unit == 'h' || unit == 'd' || unit == 'w'
    ensures seconds.Some? ==> seconds.value > 0 && seconds.value % 60 == 0
  {
    match unit
    case 'm' => Some(60)
    case 'h' => Some(60 * 60)
    case 'd' => Some(24 * 60 * 60)
    case 'w' => Some(7 * 24 * 60 * 60)
    case _ => None
  }

  function Unit(interval: string): char
    requires |interval| > 0
  {
    interval[|interval| - 1]
  }

  function Magnitude(interval: string): string
    requires |interval| > 0
  {
    interval[..|interval| - 1]
  }

  /**
   * The source indexes `interval[-1]` before anything else, so an empty token
   * raises instead of returning `None`; hence the precondition.
   */
  function IntervalToMilliseconds(interval: string): (ms: Option<int>)
    requires |interval| > 0
    ensures ms.Some? ==> ms.value % MinuteMs == 0
  {
    match SecondsPerUnit(Unit(interval))
    case None => None
    case Some(seconds) =>
      match ParseInteger(Magnitude(interval))
      case None => None
      case Some(n) => WholeMinutes(n, seconds); Some(n * seconds * 1000)
  }

  lemma WholeMinutes(n: int, seconds: nat)
    requires seconds % 60 == 0
    ensures (n * seconds * 1000) % MinuteMs == 0
  {
    var k := seconds / 60;
    assert n * seconds * 1000 == (n * k) * MinuteMs;
  }

  /** A token written as `str(n)` followed by a known unit means n of that unit. */
  lemma {:induction false} IntervalOfFormatted(n: int, unit: char)
    requires SecondsPerUnit(unit).Some?
    ensures IntervalToMilliseconds(IntToString(n) + [unit])
         == Some(n * SecondsPerUnit(unit).value * 1000)
  {
    var token := IntToString(n) + [unit];
    assert Unit(token) == unit;
    assert Magnitude(token) == IntToString(n);
    ParseIntegerOfIntToString(n);
  }

  /**
   * Exactly the tokens made of a known unit after an integer literal are
   * accepted: everything else, a bare unit included, gives `None`.
   */
  lemma IntervalAcceptedIff(interval: string)
    requires |interval| > 0
    ensures IntervalToMilliseconds(interval).Some?
        <==> SecondsPerUnit(Unit(interval)).Some? && IsIntegerLiteral(Magnitude(interval))
  {
  }

  /**
   * An accepted token means the same as the token whose magnitude is its value
   * written back by `str()`: only the number the magnitude denotes counts.
   */
  lemma IntervalCanonical(interval: string)
    requires |interval| > 0 && IntervalToMilliseconds(interval).Some?
    ensures ParseInteger(Magnitude(interval)).Some?
    ensures IntervalToMilliseconds(interval)
         == IntervalToMilliseconds(IntToString(ParseInteger(Magnitude(interval)).value) + [Unit(interval)])
  {
    IntervalOfFormatted(ParseInteger(Magnitude(interval)).value, Unit(interval));
  }

  /** Two magnitudes `int()` reads alike give the same interval with any unit. */
  lemma SameMagnitudeValue(m1: string, m2: string, unit: char)
    requires ParseInteger(m1) == ParseInteger(m2)
    ensures IntervalToMilliseconds(m1 + [unit]) == IntervalToMilliseconds(m2 + [unit])
  {
    assert Magnitude(m1 + [unit]) == m1 && Unit(m1 + [unit]) == unit;
    assert Magnitude(m2 + [unit]) == m2 && Unit(m2 + [unit]) == unit;
  }

  /** A zero in front of the digits, after any sign, does not change an interval: `05m` is `5m`. */
  lemma IntervalLeadingZero(sign: string, digits: string, unit: char)
    requires IsSign(sign) && |digits| > 0 && AllDigits(digits)
    ensures IntervalToMilliseconds(sign + "0" + digits + [unit])
         == IntervalToMilliseconds(sign + digits + [unit])
  {
    ParseIntegerLeadingZero(sign, digits);
    SameMagnitudeValue(sign + "0" + digits, sign + digits, unit);
  }

  /** A `+` in front of the digits does not change an interval: `+5m` is `5m`. */
  lemma IntervalLeadingPlus(digits: string, unit: char)
    requires |digits| > 0 && AllDigits(digits)
    ensures IntervalToMilliseconds("+" + digits + [unit]) == IntervalToMilliseconds(digits + [unit])
  {
    ParseIntegerPlus(digits);
    SameMagnitudeValue("+" + digits, digits, unit);
  }

  /** n hours is 60n minutes. */
  lemma HourIsSixtyMinutes(n: int)
    ensures IntervalToMilliseconds(IntToString(n) + "h").Some?
    ensures IntervalToMilliseconds(IntToString(n) + "h")
         == IntervalToMilliseconds(IntToString(60 * n) + "m")
  {
    IntervalOfFormatted(n, 'h');
    IntervalOfFormatted(60 * n, 'm');
  }

  /** n days is 24n hours. */
  lemma DayIsTwentyFourHours(n: int)
    ensures IntervalToMilliseconds(IntToString(n) + "d").Some?
    ensures IntervalToMilliseconds(IntToString(n) + "d")
         == IntervalToMilliseconds(IntToString(24 * n) + "h")
  {
    IntervalOfFormatted(n, 'd');
    IntervalOfFormatted(24 * n, 'h');
  }

  /** n weeks is 7n days. */
  lemma WeekIsSevenDays(n: int)
    ensures IntervalToMilliseconds(IntToString(n) + "w").Some?
    ensures IntervalToMilliseconds(IntToString(n) + "w")
         == IntervalToMilliseconds(IntToString(7 * n) + "d")
  {
    IntervalOfFormatted(n, 'w');
    IntervalOfFormatted(7 * n, 'd');
  }

  /** Tokens whose unit is not in the table, or whose magnitude is empty, give `None`. */
  lemma RejectedIntervals()
    ensures IntervalToMilliseconds("5q") == None
    ensures IntervalToMilliseconds("xyz") == None
    ensures IntervalToMilliseconds("m") == None
  {
    assert !IsIntegerLiteral(Magnitude("m"));
  }

  lemma FormattedToken(token: string, n: nat, unit: char)
    requires SecondsPerUnit(unit).Some? && token == NatToString(n) + [unit]
    ensures IntervalToMilliseconds(token) == Some(n * SecondsPerUnit(unit).value * 1000)
  {
    IntervalOfFormatted(n, unit);
  }

  /** Minute tokens from the function's own documentation. */
  lemma MinuteIntervals()
    ensures IntervalToMilliseconds("1m") == Some(60000)
    ensures IntervalToMilliseconds("30m") == Some(1800000)
    ensures IntervalToMilliseconds("15m") == Some(900000)
  {
    FormattedToken("1m", 1, 'm');
    FormattedToken("30m", 30, 'm');
    FormattedToken("15m", 15, 'm');
  }

  /** Hour tokens from the function's own documentation. */
  lemma HourIntervals()
    ensures IntervalToMilliseconds("1h") == Some(3600000)
    ensures IntervalToMilliseconds("12h") == Some(43200000)
  {
    FormattedToken("1h", 1, 'h');
    FormattedToken("12h", 12, 'h');
  }

  /** Day and week tokens from the function's own documentation. */
  lemma DayAndWeekIntervals()
    ensures IntervalToMilliseconds("3d") == Some(259200000)
    ensures IntervalToMilliseconds("1w") == Some(604800000)
  {
    FormattedToken("3d", 3, 'd');
    FormattedToken("1w", 1, 'w');
  }
}
