/** The textual side of the picker: the 12-hour text a bound time is rendered
    to ("11:15 PM"), the parse of a default-time string ("01:11 am") and the
    time text the picker reports when a time is set. */
module TimeText {
  import opened TimeValues

  /** A time as written on a 12-hour clock. */
  datatype Time12 = Time12(hour: nat, minute: nat, period: Period)

  predicate ValidTime12(t: Time12) {
    1 <= t.hour <= 12 && t.minute < 60
  }

  /** A selection to seed the dials with: the hour as the active format shows it
      (1-12 in 12-hour format, 0-23 in 24-hour format), the minute and the period. */
  datatype Selection = Selection(hour: nat, minute: nat, period: Period)

  // ---------------------------------------------------------------- digits

  predicate IsDigit(c: char) {
    '0' <= c <= '9'
  }

  predicate AllDigits(s: string) {
    forall i :: 0 <= i < |s| ==> IsDigit(s[i])
  }

  function DigitValue(c: char): nat
    requires IsDigit(c)
  {
    c as int - '0' as int
  }

  function DigitChar(d: nat): (c: char)
    requires d < 10
    ensures IsDigit(c) && DigitValue(c) == d
  {
    ('0' as int + d) as char
  }

  lemma DigitCharOfValue(c: char)
    requires IsDigit(c)
    ensures DigitChar(DigitValue(c)) == c
  {
  }

  /** The value of a string of decimal digits, most significant first. */
  function DigitsValue(s: string): nat
    requires AllDigits(s)
    decreases |s|
  {
    if s == [] then 0 else 10 * DigitsValue(s[..|s| - 1]) + DigitValue(s[|s| - 1])
  }

  /** The decimal text of `n`, without leading zeros. */
  function DecimalText(n: nat): (s: string)
    ensures AllDigits(s)
    ensures 1 <= |s|
    ensures |s| == 1 <==> n < 10
    ensures 10 <= n < 100 ==> |s| == 2
    decreases n
  {
    if n < 10 then [DigitChar(n)] else DecimalText(n / 10) + [DigitChar(n % 10)]
  }

  lemma {:induction false} DecimalTextValue(n: nat)
    ensures DigitsValue(DecimalText(n)) == n
    decreases n
  {
    var s := DecimalText(n);
    if n < 10 {
      assert s[..0] == [];
    } else {
      DecimalTextValue(n / 10);
      assert s[..|s| - 1] == DecimalText(n / 10);
    }
  }

  /** The decimal text of `n` padded to at least two digits ("hh", "mm"). */
  function Pad2(n: nat): (s: string)
    ensures AllDigits(s)
    ensures n < 100 ==> |s| == 2
  {
    if n < 10 then ['0'] + DecimalText(n) else DecimalText(n)
  }

  lemma Pad2Value(n: nat)
    ensures DigitsValue(Pad2(n)) == n
  {
    DecimalTextValue(n);
    if n < 10 {
      var s := Pad2(n);
      assert s[..1] == ['0'];
      assert s[..1][..0] == [];
    }
  }

  // ---------------------------------------------------------------- rendering

  function PeriodText(p: Period): string {
    if p == AM then "AM" else "PM"
  }

  /** "hh:mm AM" for an hour, a minute and a period. */
  function Compose12(hour: nat, minute: nat, period: Period): string {
    Pad2(hour) + ":" + Pad2(minute) + " " + PeriodText(period)
  }

  /** "HH:mm" for an hour and a minute. */
  function Compose24(hour: nat, minute: nat): string {
    Pad2(hour) + ":" + Pad2(minute)
  }

  /** The time text for the current selection in the given format. In 24-hour
      format its two digit pairs are the hour and the minute; in 12-hour format
      a selection with hour 1-12 and minute 0-59 reads back as itself. */
  function ComposeTime(format: int, hour: nat, minute: nat, period: Period): (r: string)
    ensures format == 24 && hour < 100 && minute < 100 ==>
              |r| == 5 && r[2] == ':' && AllDigits(r[..2]) && DigitsValue(r[..2]) == hour
              && AllDigits(r[3..]) && DigitsValue(r[3..]) == minute
    ensures format != 24 && 1 <= hour <= 12 && minute < 60 ==>
              ParseTime12(r) == Some(Time12(hour, minute, period))
  {
    if format == 24 then
      if hour < 100 && minute < 100 then
        Compose24Parts(hour, minute);
        Compose24(hour, minute)
      else Compose24(hour, minute)
    else if 1 <= hour <= 12 && minute < 60 then
      Compose12RoundTrip(hour, minute, period);
      Compose12(hour, minute, period)
    else Compose12(hour, minute, period)
  }

  lemma Compose24Parts(hour: nat, minute: nat)
    requires hour < 100 && minute < 100
    ensures var s := Compose24(hour, minute);
            |s| == 5 && s[2] == ':' && s[..2] == Pad2(hour) && s[3..] == Pad2(minute)
            && DigitsValue(s[..2]) == hour && DigitsValue(s[3..]) == minute
  {
    var h, m := Pad2(hour), Pad2(minute);
    var s := h + ":" + m;
    assert s[..2] == h;
    assert s[3..] == m;
    Pad2Value(hour);
    Pad2Value(minute);
  }

  /** A 24-hour bound time rendered as 12-hour text, as a default time is
      written: the text reads back as the time's 12-hour reading. */
  function Render12(t: ClockTime): (r: string)
    requires ValidClockTime(t)
    ensures ParseTime12(r) == Some(Time12(Hour12Of(t.hour), t.minute, PeriodOf(t.hour)))
  {
    Compose12RoundTrip(Hour12Of(t.hour), t.minute, PeriodOf(t.hour));
    Compose12(Hour12Of(t.hour), t.minute, PeriodOf(t.hour))
  }

  // ---------------------------------------------------------------- parsing

  /** "am" or "pm" in any letter case. */
  function ParsePeriod(s: string): (r: Option<Period>)
    ensures r.Some? ==> |s| == 2 && (s[1] == 'm' || s[1] == 'M')
    ensures r == Some(AM) <==> |s| == 2 && (s[0] == 'a' || s[0] == 'A') && (s[1] == 'm' || s[1] == 'M')
    ensures r == Some(PM) <==> |s| == 2 && (s[0] == 'p' || s[0] == 'P') && (s[1] == 'm' || s[1] == 'M')
  {
    if |s| != 2 || !(s[1] == 'm' || s[1] == 'M') then None
    else if s[0] == 'a' || s[0] == 'A' then Some(AM)
    else if s[0] == 'p' || s[0] == 'P' then Some(PM)
    else None
  }

  /** Parses "h:mm am" or "hh:mm am" (period in any letter case). The text is
      rejected unless the hour is 1-12 and the minute 0-59. */
  function ParseTime12(s: string): (r: Option<Time12>)
    ensures r.Some? ==> ValidTime12(r.value)
    ensures r.Some? ==> (|s| == 7 || |s| == 8) && s[|s| - 6] == ':' && s[|s| - 3] == ' '
    ensures r.Some? ==>
              var n := |s| - 6;
              AllDigits(s[..n]) && DigitsValue(s[..n]) == r.value.hour
              && AllDigits(s[n + 1..n + 3]) && DigitsValue(s[n + 1..n + 3]) == r.value.minute
              && ParsePeriod(s[n + 4..]) == Some(r.value.period)
  {
    if |s| < 7 || |s| > 8 then None
    else
      var n := |s| - 6;
      var hourText, minuteText := s[..n], s[n + 1..n + 3];
      var period := ParsePeriod(s[n + 4..]);
      if AllDigits(hourText) && s[n] == ':' && AllDigits(minuteText) && s[n + 3] == ' ' && period.Some? then
        var hour, minute := DigitsValue(hourText), DigitsValue(minuteText);
        if 1 <= hour <= 12 && minute < 60 then Some(Time12(hour, minute, period.value)) else None
      else None
  }

  /** The selection a default-time text seeds in the given format: the parsed
      minute and period, and the parsed hour moved to 0-23 in 24-hour format. */
  function DefaultSelection(text: string, format: int): (r: Option<Selection>)
    ensures r.Some? <==> ParseTime12(text).Some?
    ensures r.Some? ==> r.value.minute < 60 && (if format == 24 then r.value.hour < 24 else 1 <= r.value.hour <= 12)
    ensures r.Some? ==>
              var t := ParseTime12(text).value;
              r.value.minute == t.minute && r.value.period == t.period
              && if format == 24 then Hour12Of(r.value.hour) == t.hour && PeriodOf(r.value.hour) == t.period
                 else r.value.hour == t.hour
  {
    match ParseTime12(text)
    case None => None
    case Some(t) =>
      var hour := if format == 24 then Hour24Of(t.hour, t.period) else t.hour;
      Some(Selection(hour, t.minute, t.period))
  }

  // ---------------------------------------------------------------- round trips

  /** Parsing the 12-hour text of a time gives that time back. */
  lemma Compose12RoundTrip(hour: nat, minute: nat, period: Period)
    requires 1 <= hour <= 12 && minute < 60
    ensures ParseTime12(Compose12(hour, minute, period)) == Some(Time12(hour, minute, period))
  {
    SpelledSlices(Pad2(hour), Pad2(minute), PeriodText(period));
    Pad2Value(hour);
    Pad2Value(minute);
  }

  /** Seeding from a bound time gives back that time's minute and period, and
      its hour as the format shows it: the 12-hour reading of the rendered text
      determines the bound time. */
  lemma SeedFromBound(t: ClockTime, format: int)
    requires ValidClockTime(t)
    ensures DefaultSelection(Render12(t), format)
            == Some(Selection(if format == 24 then t.hour else Hour12Of(t.hour), t.minute, PeriodOf(t.hour)))
  {
    Hour12RoundTrip(t.hour);
  }

  /** A text spelled "h:mm xm" or "hh:mm xm" (period in any letter case) is
      accepted exactly when its hour is 1-12 and its minute 0-59, and then it
      gives the hour, minute and period written in it. */
  lemma ParseSpelled(h: string, m: string, p: string)
    requires AllDigits(h) && 1 <= |h| <= 2
    requires AllDigits(m) && |m| == 2
    requires ParsePeriod(p).Some?
    ensures ParseTime12(h + ":" + m + " " + p)
            == if 1 <= DigitsValue(h) <= 12 && DigitsValue(m) < 60
               then Some(Time12(DigitsValue(h), DigitsValue(m), ParsePeriod(p).value))
               else None
  {
    SpelledSlices(h, m, p);
    var s := h + ":" + m + " " + p;
    var n := |h|;
    var hour, minute := DigitsValue(s[..n]), DigitsValue(s[n + 1..n + 3]);
    assert hour == DigitsValue(h) && minute == DigitsValue(m);
    assert ParsePeriod(s[n + 4..]) == ParsePeriod(p);
  }

  /** Where the parts of a spelled time text sit in it. */
  lemma SpelledSlices(h: string, m: string, p: string)
    requires 1 <= |h| <= 2 && |m| == 2 && |p| == 2
    ensures var s := h + ":" + m + " " + p;
            |s| - 6 == |h| && s[..|h|] == h && s[|h|] == ':'
            && s[|h| + 1..|h| + 3] == m && s[|h| + 3] == ' ' && s[|h| + 4..] == p
  {
    var s := h + ":" + m + " " + p;
    var n := |h|;
    var middle, tail := ":" + m, " " + p;
    assert s == h + middle + tail;
    assert s[..n] == h;
    assert s[n..n + 3] == middle;
    assert s[n + 3..] == tail;
  }

  /** Two digits are the padded spelling of their value. */
  lemma TwoDigitsCanonical(d: string)
    requires AllDigits(d) && |d| == 2
    ensures d == Pad2(DigitsValue(d))
  {
    assert d == [d[0], d[1]];
    TwoDigitsValue(d[0], d[1]);
    DigitCharOfValue(d[0]);
    DigitCharOfValue(d[1]);
    var v := DigitsValue(d);
    if v < 10 {
      assert DigitValue(d[0]) == 0;
      assert Pad2(v) == ['0', DigitChar(v)];
    } else {
      assert v / 10 == DigitValue(d[0]) && v % 10 == DigitValue(d[1]);
      assert DecimalText(v) == DecimalText(v / 10) + [DigitChar(v % 10)];
    }
  }

  /** One digit is the plain spelling of its value. */
  lemma OneDigitCanonical(d: string)
    requires AllDigits(d) && |d| == 1
    ensures d == DecimalText(DigitsValue(d))
  {
    assert d[..0] == [];
    DigitCharOfValue(d[0]);
  }

  /** An accepted text is the canonical spelling of the time it parses to, up to
      the letter case of the period and a dropped leading zero of the hour. */
  lemma ParsePrintsBack(s: string)
    requires ParseTime12(s).Some?
    ensures var t := ParseTime12(s).value;
            var n := |s| - 6;
            s == s[..n] + ":" + Pad2(t.minute) + " " + s[n + 4..]
            && (if n == 2 then s[..n] == Pad2(t.hour) else s[..n] == DecimalText(t.hour))
            && ParsePeriod(s[n + 4..]) == Some(t.period)
  {
    var t := ParseTime12(s).value;
    var n := |s| - 6;
    TwoDigitsCanonical(s[n + 1..n + 3]);
    if n == 2 {
      TwoDigitsCanonical(s[..n]);
    } else {
      OneDigitCanonical(s[..n]);
    }
    assert s == s[..n] + ":" + s[n + 1..n + 3] + " " + s[n + 4..];
  }

  // ---------------------------------------------------------------- examples

  /** 23:15 renders as "11:15 PM". */
  lemma RenderLateEvening()
    ensures Render12(ClockTime(23, 15)) == "11:15 PM"
  {
  }

  /** "11:12 am" and "01:11 am" seed 11:12 AM and 1:11 AM in 12-hour format. */
  lemma ParseDefaultTimes()
    ensures DefaultSelection("11:12 am", 12) == Some(Selection(11, 12, AM))
    ensures DefaultSelection("01:11 am", 12) == Some(Selection(1, 11, AM))
  {
    TwoDigitsValue('1', '1');
    TwoDigitsValue('1', '2');
    TwoDigitsValue('0', '1');
    ParseSpelled("11", "12", "am");
    assert "11" + ":" + "12" + " " + "am" == "11:12 am";
    ParseSpelled("01", "11", "am");
    assert "01" + ":" + "11" + " " + "am" == "01:11 am";
  }

  /** A 12-hour text built from an hour kept from 24-hour format does not read back. */
  lemma KeptTwentyFourHourRejected()
    ensures ComposeTime(12, 23, 15, PM) == "23:15 PM"
    ensures ParseTime12(ComposeTime(12, 23, 15, PM)) == None
  {
    TwoDigitsValue('2', '3');
    TwoDigitsValue('1', '5');
    ParseSpelled("23", "15", "PM");
    assert "23" + ":" + "15" + " " + "PM" == "23:15 PM";
  }

  lemma TwoDigitsValue(a: char, b: char)
    requires IsDigit(a) && IsDigit(b)
    ensures DigitsValue([a, b]) == 10 * DigitValue(a) + DigitValue(b)
  {
    assert [a, b][..1] == [a];
    assert [a][..0] == [];
    assert DigitsValue([a]) == DigitValue(a);
  }
}
