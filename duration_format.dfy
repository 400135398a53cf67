/** `formatar_tempo` (app.py and teste.py): `str(timedelta(seconds=n))`,
    that is "H:MM:SS", preceded by "1 day, " or "N days, " from one day on;
    and the parser that reads such a text back. */
module DurationFormat {
  import opened Common

  predicate IsDigit(c: char)
  {
    '0' <= c <= '9'
  }

  predicate AllDigits(s: string)
  {
    forall i | 0 <= i < |s| :: IsDigit(s[i])
  }

  function DigitChar(d: nat): (c: char)
    requires d < 10
    ensures IsDigit(c) && c as int - '0' as int == d
  {
    ('0' as int + d) as char
  }

  function DigitValue(c: char): (d: nat)
    requires IsDigit(c)
    ensures d < 10 && DigitChar(d) == c
  {
    (c as int - '0' as int) as nat
  }

  /** Decimal notation of `n`, without leading zeros (Python's `%d`). */
  function Decimal(n: nat): (s: string)
    ensures s != [] && AllDigits(s)
    decreases n
  {
    if n < 10 then [DigitChar(n)] else Decimal(n / 10) + [DigitChar(n % 10)]
  }

  /** The number a string of decimal digits denotes. */
  function DecimalValue(s: string): nat
    requires AllDigits(s)
  {
    if s == [] then 0 else DecimalValue(s[..|s| - 1]) * 10 + DigitValue(s[|s| - 1])
  }

  lemma {:induction false} DecimalRoundTrip(n: nat)
    ensures DecimalValue(Decimal(n)) == n
    decreases n
  {
    var s := Decimal(n);
    if n >= 10 {
      assert s[..|s| - 1] == Decimal(n / 10);
      DecimalRoundTrip(n / 10);
    }
  }

  /** Two-digit zero-padded field (`%02d`). */
  function Pad2(n: nat): (s: string)
    requires n < 100
    ensures |s| == 2 && AllDigits(s)
  {
    [DigitChar(n / 10), DigitChar(n % 10)]
  }

  lemma Pad2Value(n: nat)
    requires n < 100
    ensures DecimalValue(Pad2(n)) == n
  {
    var s := Pad2(n);
    assert s[..1] == [DigitChar(n / 10)];
    assert s[..1][..0] == [];
    assert DecimalValue(s[..1]) == n / 10;
    assert DigitValue(s[1]) == n % 10;
  }

  /** "H:MM:SS" for a time below one day. */
  function FormatClock(n: nat): string
    requires n < SecondsPerDay
  {
    Decimal(n / 3600) + ":" + Pad2(n / 60 % 60) + ":" + Pad2(n % 60)
  }

  /** `formatar_tempo(n)` = `str(timedelta(seconds=n))` for n >= 0 (app.py:123-124, teste.py:28-29). */
  function FormatDuration(n: nat): (s: string)
    ensures n < SecondsPerDay ==> 7 <= |s| <= 8
    ensures n >= SecondsPerDay ==> |s| >= 14
  {
    var days := n / SecondsPerDay;
    var clock := FormatClock(n % SecondsPerDay);
    assert 7 <= |clock| <= 8 by {
      var h := n % SecondsPerDay / 3600;
      assert h < 24;
      assert |Decimal(h)| <= 2 by { if h >= 10 { assert Decimal(h) == Decimal(h / 10) + [DigitChar(h % 10)]; } }
    }
    (if days == 0 then "" else Decimal(days) + DaySeparator(days)) + clock
  }

  /** The "N day(s), " prefix, the only place a space can appear, is written exactly from one day on. */
  lemma DayPrefixIffOneDay(n: nat)
    ensures n < SecondsPerDay <==> ' ' !in FormatDuration(n)
  {
    var days := n / SecondsPerDay;
    ClockHasNoSpace(n % SecondsPerDay);
    if days > 0 {
      DayPrefixHasSpace(days);
      assert FormatDuration(n) == (Decimal(days) + DaySeparator(days)) + FormatClock(n % SecondsPerDay);
    } else {
      assert FormatDuration(n) == FormatClock(n % SecondsPerDay);
    }
  }

  lemma ClockHasNoSpace(c: nat)
    requires c < SecondsPerDay
    ensures ' ' !in FormatClock(c)
  {
    var h, m, sec := Decimal(c / 3600), Pad2(c / 60 % 60), Pad2(c % 60);
    assert FormatClock(c) == h + ":" + m + ":" + sec;
    assert ' ' !in h && ' ' !in m && ' ' !in sec;
  }

  lemma DayPrefixHasSpace(days: nat)
    ensures ' ' in Decimal(days) + DaySeparator(days)
  {
    assert (Decimal(days) + DaySeparator(days))[|Decimal(days)|] == ' ';
  }

  /** Python's `"%d day%s, "` after the day count: plural unless the count is one. */
  function DaySeparator(days: nat): string
  {
    if days == 1 then " day, " else " days, "
  }

  /** Length of the run of digits at the start of `s`. */
  function DigitSpan(s: string): (k: nat)
    ensures k <= |s| && AllDigits(s[..k])
    ensures k < |s| ==> !IsDigit(s[k])
  {
    if s != [] && IsDigit(s[0]) then
      var k := 1 + DigitSpan(s[1..]);
      assert s[..k] == [s[0]] + s[1..][..k - 1];
      k
    else 0
  }

  /** Reads "H:MM:SS" (any number of hour digits) back into seconds. */
  function ParseClock(s: string): Option<nat>
  {
    var k := DigitSpan(s);
    if k == 0 || |s| != k + 6 || s[k] != ':' || s[k + 3] != ':'
       || !AllDigits(s[k + 1..k + 3]) || !AllDigits(s[k + 4..]) then None
    else
      var m := DecimalValue(s[k + 1..k + 3]);
      var sec := DecimalValue(s[k + 4..]);
      if m < 60 && sec < 60 then Some(DecimalValue(s[..k]) * 3600 + m * 60 + sec) else None
  }

  /** Reads back a text in the form `FormatDuration` writes. */
  function ParseDuration(s: string): Option<nat>
  {
    var k := DigitSpan(s);
    if k == 0 then None
    else if k < |s| && s[k] == ':' then ParseClock(s)
    else
      var days := DecimalValue(s[..k]);
      var sep := DaySeparator(days);
      var rest := s[k..];
      if |sep| <= |rest| && rest[..|sep|] == sep then
        match ParseClock(rest[|sep|..])
        case Some(c) => if c < SecondsPerDay then Some(days * SecondsPerDay + c) else None
        case None => None
      else None
  }

  lemma {:induction false} SpanOfDecimal(d: string, t: string)
    requires AllDigits(d)
    requires t == [] || !IsDigit(t[0])
    ensures DigitSpan(d + t) == |d|
    decreases |d|
  {
    if d != [] {
      assert (d + t)[1..] == d[1..] + t;
      SpanOfDecimal(d[1..], t);
    } else {
      assert d + t == t;
    }
  }

  lemma ClockFields(n: nat)
    requires n < SecondsPerDay
    ensures n / 3600 * 3600 + n / 60 % 60 * 60 + n % 60 == n
  {
    var h, r := n / 3600, n % 3600;
    assert n == h * 3600 + r;
    assert n / 60 == h * 60 + r / 60;
    assert n / 60 % 60 == r / 60;
    assert n % 60 == r % 60;
  }

  lemma ClockRoundTrip(n: nat)
    requires n < SecondsPerDay
    ensures ParseClock(FormatClock(n)) == Some(n)
  {
    var hs, mm, ss := Decimal(n / 3600), Pad2(n / 60 % 60), Pad2(n % 60);
    var tail := ":" + mm + ":" + ss;
    var s := FormatClock(n);
    assert s == hs + tail;
    SpanOfDecimal(hs, tail);
    var k := |hs|;
    assert s[..k] == hs;
    assert s[k + 1..k + 3] == mm;
    assert s[k + 4..] == ss;
    DecimalRoundTrip(n / 3600);
    Pad2Value(n / 60 % 60);
    Pad2Value(n % 60);
    ClockFields(n);
  }

  /** Below one day the text is the clock part alone, which starts with the hour digits. */
  lemma ShortDurationRoundTrip(n: nat)
    requires n < SecondsPerDay
    ensures ParseDuration(FormatDuration(n)) == Some(n)
  {
    var clock := FormatClock(n);
    assert FormatDuration(n) == clock;
    var hs, tail := Decimal(n / 3600), ":" + Pad2(n / 60 % 60) + ":" + Pad2(n % 60);
    assert clock == hs + tail;
    SpanOfDecimal(hs, tail);
    assert clock[|hs|] == ':';
    ClockRoundTrip(n);
  }

  /** From one day on the text is the day count, its separator and the clock part. */
  lemma LongDurationRoundTrip(days: nat, c: nat)
    requires days > 0 && c < SecondsPerDay
    ensures ParseDuration(Decimal(days) + DaySeparator(days) + FormatClock(c)) == Some(days * SecondsPerDay + c)
  {
    var ds, sep, clock := Decimal(days), DaySeparator(days), FormatClock(c);
    var s := ds + (sep + clock);
    assert Decimal(days) + DaySeparator(days) + FormatClock(c) == s;
    SpanOfDecimal(ds, sep + clock);
    assert s[..|ds|] == ds;
    DecimalRoundTrip(days);
    assert s[|ds|..] == sep + clock;
    assert (sep + clock)[..|sep|] == sep;
    assert (sep + clock)[|sep|..] == clock;
    assert s[|ds|] == ' ';
    assert DaySeparator(DecimalValue(s[..|ds|])) == sep;
    ClockRoundTrip(c);
  }

  /** Reading back what `formatar_tempo` writes gives the same number of seconds. */
  lemma DurationRoundTrip(n: nat)
    ensures ParseDuration(FormatDuration(n)) == Some(n)
  {
    if n < SecondsPerDay {
      ShortDurationRoundTrip(n);
    } else {
      var days, c := n / SecondsPerDay, n % SecondsPerDay;
      LongDurationText(n);
      LongDurationRoundTrip(days, c);
      DayFields(n);
    }
  }

  lemma DayFields(n: nat)
    ensures n / SecondsPerDay * SecondsPerDay + n % SecondsPerDay == n
  {
  }

  lemma LongDurationText(n: nat)
    requires n >= SecondsPerDay
    ensures FormatDuration(n) == Decimal(n / SecondsPerDay) + DaySeparator(n / SecondsPerDay) + FormatClock(n % SecondsPerDay)
  {
  }
}
