/** Calendar dates and timestamps as `datetime` gives them, with the two renderings the
    application uses: `strftime("%d-%m-%Y")` for holiday keys and `isoformat()`. */
module Clock {
  import opened Text
  import opened Wrappers

  function DaysIn(month: int, year: int): int
  {
    if month == 2 then (if (year % 4 == 0 && year % 100 != 0) || year % 400 == 0 then 29 else 28)
    else if month == 4 || month == 6 || month == 9 || month == 11 then 30
    else 31
  }

  datatype CalendarDate = CalendarDate(day: int, month: int, year: int)

  predicate ValidDate(d: CalendarDate)
  {
    1 <= d.year <= 9999 && 1 <= d.month <= 12 && 1 <= d.day <= DaysIn(d.month, d.year)
  }

  /** A date `datetime.date` can represent. */
  type Date = d: CalendarDate | ValidDate(d) witness CalendarDate(1, 1, 1)

  datatype Moment = Moment(date: Date, hour: int, minute: int, second: int, microsecond: int)

  /** A `datetime.datetime` without time zone. */
  type DateTime = t: Moment | 0 <= t.hour < 24 && 0 <= t.minute < 60 && 0 <= t.second < 60
                              && 0 <= t.microsecond < 1000000
    witness Moment(CalendarDate(1, 1, 1), 0, 0, 0, 0)

  /** `date.strftime("%d-%m-%Y")`: the key under which holidays are stored. */
  function DateKey(d: Date): (k: string)
    ensures |k| == 10 && k[2] == '-' && k[5] == '-'
  {
    Fixed(d.day, 2, 10) + "-" + Fixed(d.month, 2, 10) + "-" + Fixed(d.year, 4, 10)
  }

  /** Reads a `DD-MM-YYYY` key back; `None` for anything that is not the key of a valid date. */
  function ParseDateKey(s: string): Option<Date>
  {
    if |s| == 10 && s[2] == '-' && s[5] == '-'
       && AllDigits(s[..2], 10) && AllDigits(s[3..5], 10) && AllDigits(s[6..], 10)
    then
      var c := CalendarDate(ParseFixed(s[..2], 10), ParseFixed(s[3..5], 10), ParseFixed(s[6..], 10));
      if ValidDate(c) then Some(c) else None
    else None
  }

  /** The key of a date reads back as that date. */
  lemma DateKeyRoundTrip(d: Date)
    ensures ParseDateKey(DateKey(d)) == Some(d)
  {
    var k := DateKey(d);
    assert k[..2] == Fixed(d.day, 2, 10);
    assert k[3..5] == Fixed(d.month, 2, 10);
    assert k[6..] == Fixed(d.year, 4, 10);
    ParseFixedOfFixed(d.day, 2);
    ParseFixedOfFixed(d.month, 2);
    ParseFixedOfFixed(d.year, 4);
  }

  /** Every string that reads as a date is exactly that date's key: keys are canonical. */
  lemma DateKeyOfParsed(s: string)
    requires ParseDateKey(s).Some?
    ensures DateKey(ParseDateKey(s).value) == s
  {
    var d := ParseDateKey(s).value;
    FixedOfParseFixed(s[..2]);
    FixedOfParseFixed(s[3..5]);
    FixedOfParseFixed(s[6..]);
    assert s == s[..2] + "-" + s[3..5] + "-" + s[6..];
  }

  /** Distinct dates have distinct keys. */
  lemma DateKeyInjective(d1: Date, d2: Date)
    requires DateKey(d1) == DateKey(d2)
    ensures d1 == d2
  {
    DateKeyRoundTrip(d1);
    DateKeyRoundTrip(d2);
  }

  /** `datetime.isoformat(sep)`; the fraction is printed only when it is not zero. */
  function IsoFormat(t: DateTime, sep: char): (r: string)
    ensures |r| == (if t.microsecond == 0 then 19 else 26)
  {
    Fixed(t.date.year, 4, 10) + "-" + Fixed(t.date.month, 2, 10) + "-" + Fixed(t.date.day, 2, 10)
    + [sep] + Fixed(t.hour, 2, 10) + ":" + Fixed(t.minute, 2, 10) + ":" + Fixed(t.second, 2, 10)
    + (if t.microsecond == 0 then "" else "." + Fixed(t.microsecond, 6, 10))
  }

  /** `datetime.isoformat()`. */
  function Iso(t: DateTime): string
  {
    IsoFormat(t, 'T')
  }
}
