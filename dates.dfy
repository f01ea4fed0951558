/**
 * Calendar dates as the store keeps them (a `Date` at midnight), the ISO
 * `YYYY-MM-DD` text the validators accept, and the month arithmetic of the
 * `moment` library that the rental virtuals use.
 */
module Dates {
  import opened Wrappers

  datatype Date = Date(year: int, month: int, day: int)

  predicate IsLeapYear(y: int) {
    y % 4 == 0 && (y % 100 != 0 || y % 400 == 0)
  }

  function DaysInMonth(y: int, m: int): (n: int)
    requires 1 <= m <= 12
    ensures 28 <= n <= 31
  {
    if m == 2 then (if IsLeapYear(y) then 29 else 28)
    else if m == 4 || m == 6 || m == 9 || m == 11 then 30
    else 31
  }

  predicate ValidDate(d: Date) {
    1 <= d.month <= 12 && 1 <= d.day <= DaysInMonth(d.year, d.month)
  }

  /** A day of the proleptic Gregorian calendar. */
  type CalDate = d: Date | ValidDate(d) witness Date(1970, 1, 1)

  /** Strict chronological order. */
  predicate Before(a: Date, b: Date) {
    a.year < b.year || (a.year == b.year && (a.month < b.month || (a.month == b.month && a.day < b.day)))
  }

  predicate NotAfter(a: Date, b: Date) {
    a == b || Before(a, b)
  }

  /** Months since the start of year 0; consecutive months get consecutive numbers. */
  function MonthIndex(d: Date): int {
    d.year * 12 + (d.month - 1)
  }

  lemma MonthIndexInjective(a: CalDate, b: CalDate)
    requires MonthIndex(a) == MonthIndex(b)
    ensures a.year == b.year && a.month == b.month
  {
    assert (a.year - b.year) * 12 == b.month - a.month;
  }

  /** The day after `d`: later than `d`, and no day lies strictly between them. */
  function NextDay(d: CalDate): (r: CalDate)
    ensures Before(d, r)
    ensures forall x: CalDate :: Before(d, x) ==> NotAfter(r, x)
  {
    if d.day < DaysInMonth(d.year, d.month) then Date(d.year, d.month, d.day + 1)
    else if d.month < 12 then Date(d.year, d.month + 1, 1)
    else Date(d.year + 1, 1, 1)
  }

  /** The day before `d`, the inverse of NextDay. */
  function PrevDay(d: CalDate): (r: CalDate)
    ensures NextDay(r) == d
  {
    if d.day > 1 then Date(d.year, d.month, d.day - 1)
    else if d.month > 1 then Date(d.year, d.month - 1, DaysInMonth(d.year, d.month - 1))
    else Date(d.year - 1, 12, 31)
  }

  lemma PrevDayOfNextDay(d: CalDate)
    ensures PrevDay(NextDay(d)) == d
  {
  }

  /**
   * `moment(d).add(k, "months")`: the same day `k` months later, clamped to
   * the last day of the target month when that month is shorter.
   */
  function AddMonths(d: CalDate, k: int): (r: CalDate)
    ensures MonthIndex(r) == MonthIndex(d) + k
    ensures r.day <= d.day
    ensures r.day < d.day ==> r.day == DaysInMonth(r.year, r.month)
  {
    var idx := MonthIndex(d) + k;
    var y, m := idx / 12, idx % 12 + 1;
    var last := DaysInMonth(y, m);
    Date(y, m, if d.day <= last then d.day else last)
  }

  /**
   * `moment(stop).diff(moment(start), "months", true)` when that value is a
   * whole number, None when it has a fractional part (not modelled).
   * moment anchors at the date with the larger day of the month and adds the
   * whole month difference to it; the value is whole exactly when the anchor
   * then lands on the other date.
   */
  function WholeMonths(start: CalDate, stop: CalDate): (r: Option<int>)
    ensures r.Some? ==> r.value == MonthIndex(stop) - MonthIndex(start)
    ensures r.Some? <==> AddMonths(start, MonthIndex(stop) - MonthIndex(start)) == stop
                         || AddMonths(stop, MonthIndex(start) - MonthIndex(stop)) == start
  {
    var k := MonthIndex(stop) - MonthIndex(start);
    if stop.day < start.day then
      (if AddMonths(start, k) == stop then Some(k) else None)
    else
      (if AddMonths(stop, -k) == start then Some(k) else None)
  }

  /** Whole months from `start` to `k` months later, for every start day: the anchor round trip. */
  lemma {:induction false} WholeMonthsOfAddMonths(start: CalDate, k: int)
    ensures WholeMonths(start, AddMonths(start, k)) == Some(k)
  {
    var stop := AddMonths(start, k);
    if stop.day >= start.day {
      var back := AddMonths(stop, -k);
      assert MonthIndex(back) == MonthIndex(start);
      MonthIndexInjective(back, start);
    }
  }

  // ---- instants -----------------------------------------------------------

  const MsPerDay: int := 86400000

  /** A moment in time: a day and the milliseconds elapsed since its midnight. */
  datatype Instant = Instant(date: CalDate, ms: int)

  type Moment = t: Instant | 0 <= t.ms < MsPerDay witness Instant(Date(1970, 1, 1), 0)

  function Midnight(d: CalDate): Moment {
    Instant(d, 0)
  }

  predicate InstantBefore(a: Instant, b: Instant) {
    Before(a.date, b.date) || (a.date == b.date && a.ms < b.ms)
  }

  // ---- ISO text -----------------------------------------------------------

  predicate IsDigit(c: char) {
    '0' <= c <= '9'
  }

  function DigitValue(c: char): int
    requires IsDigit(c)
  {
    c as int - '0' as int
  }

  function DigitChar(n: int): (c: char)
    requires 0 <= n <= 9
    ensures IsDigit(c) && DigitValue(c) == n
  {
    ('0' as int + n) as char
  }

  /**
   * The calendar day `y-m-d` names when `d` may run up to 31 in any month: a
   * day past the end of the month rolls into the next month, as the
   * JavaScript `Date` parser does ("2021-06-31" is 1 July 2021).
   */
  function RollOver(y: int, m: int, d: int): (r: CalDate)
    requires 1 <= m <= 12 && 1 <= d <= 31
    ensures d <= DaysInMonth(y, m) ==> r == Date(y, m, d)
    ensures d > DaysInMonth(y, m) ==> r == Date(y, m + 1, d - DaysInMonth(y, m))
  {
    var last := DaysInMonth(y, m);
    // December has 31 days, so only a month before it can overflow
    if d <= last then Date(y, m, d) else Date(y, m + 1, d - last)
  }

  /**
   * The `YYYY-MM-DD` form of an ISO 8601 date: four-digit year, month 01-12,
   * day 01-31 (the day is not checked against the month's length).
   */
  function ParseIsoDate(s: string): (r: Option<CalDate>)
    ensures r.Some? ==> |s| == 10 && s[4] == '-' && s[7] == '-'
    ensures r.Some? ==> 0 <= r.value.year <= 9999
  {
    if |s| == 10 && s[4] == '-' && s[7] == '-'
       && IsDigit(s[0]) && IsDigit(s[1]) && IsDigit(s[2]) && IsDigit(s[3])
       && IsDigit(s[5]) && IsDigit(s[6]) && IsDigit(s[8]) && IsDigit(s[9])
    then
      var y := 1000 * DigitValue(s[0]) + 100 * DigitValue(s[1]) + 10 * DigitValue(s[2]) + DigitValue(s[3]);
      var m := 10 * DigitValue(s[5]) + DigitValue(s[6]);
      var d := 10 * DigitValue(s[8]) + DigitValue(s[9]);
      if 1 <= m <= 12 && 1 <= d <= 31 then Some(RollOver(y, m, d)) else None
    else None
  }

  /** Text of the `YYYY-MM-DD` shape: dashes at positions 4 and 7, digits everywhere else. */
  predicate IsoShaped(s: string) {
    && |s| == 10 && s[4] == '-' && s[7] == '-'
    && (forall i | 0 <= i < 10 && i != 4 && i != 7 :: IsDigit(s[i]))
  }

  /** The numbers the three digit groups of an ISO-shaped text spell. */
  function YearText(s: string): int
    requires IsoShaped(s)
  {
    1000 * DigitValue(s[0]) + 100 * DigitValue(s[1]) + 10 * DigitValue(s[2]) + DigitValue(s[3])
  }

  function MonthText(s: string): int
    requires IsoShaped(s)
  {
    10 * DigitValue(s[5]) + DigitValue(s[6])
  }

  function DayText(s: string): int
    requires IsoShaped(s)
  {
    10 * DigitValue(s[8]) + DigitValue(s[9])
  }

  /** A text is accepted exactly when it has the shape, a month 01-12 and a day 01-31. */
  lemma IsoDateAccepted(s: string)
    ensures ParseIsoDate(s).Some? <==> IsoShaped(s) && 1 <= MonthText(s) <= 12 && 1 <= DayText(s) <= 31
  {
    if IsoShaped(s) {
      assert IsDigit(s[0]) && IsDigit(s[1]) && IsDigit(s[2]) && IsDigit(s[3]);
      assert IsDigit(s[5]) && IsDigit(s[6]) && IsDigit(s[8]) && IsDigit(s[9]);
    }
  }

  /**
   * The date an accepted text names: the day it spells when that day exists
   * in its month, otherwise the day that many days past the month's last.
   */
  lemma IsoDateValue(s: string)
    requires IsoShaped(s) && 1 <= MonthText(s) <= 12 && 1 <= DayText(s) <= 31
    ensures ParseIsoDate(s).Some?
    ensures var y, m, d := YearText(s), MonthText(s), DayText(s);
            && (d <= DaysInMonth(y, m) ==> ParseIsoDate(s).value == Date(y, m, d))
            && (d > DaysInMonth(y, m) ==> ParseIsoDate(s).value == Date(y, m + 1, d - DaysInMonth(y, m)))
  {
    IsoDateAccepted(s);
  }

  /** "2021-06-32" and "23-06-2021" are rejected; "2021-06-31" names 1 July 2021. */
  lemma SampleIsoTexts()
    ensures ParseIsoDate("2021-06-32").None?
    ensures ParseIsoDate("23-06-2021").None?
    ensures ParseIsoDate("2021-06-31") == Some(Date(2021, 7, 1))
  {
    assert DigitValue('3') == 3 && DigitValue('2') == 2 && DigitValue('1') == 1 && DigitValue('0') == 0;
    assert DigitValue('6') == 6;
  }

  /** `YYYY-MM-DD` text of a day in years 0 to 9999. */
  function FormatIsoDate(d: CalDate): (s: string)
    requires 0 <= d.year <= 9999
    ensures |s| == 10
  {
    [DigitChar(d.year / 1000), DigitChar(d.year % 1000 / 100), DigitChar(d.year % 100 / 10), DigitChar(d.year % 10), '-',
     DigitChar(d.month / 10), DigitChar(d.month % 10), '-',
     DigitChar(d.day / 10), DigitChar(d.day % 10)]
  }

  lemma FourDigits(y: int)
    requires 0 <= y <= 9999
    ensures 0 <= y / 1000 <= 9 && 0 <= y % 1000 / 100 <= 9 && 0 <= y % 100 / 10 <= 9
    ensures 1000 * (y / 1000) + 100 * (y % 1000 / 100) + 10 * (y % 100 / 10) + y % 10 == y
  {
    var r0 := y % 1000;
    var d1, r1 := r0 / 100, r0 % 100;
    assert y == 1000 * (y / 1000) + 100 * d1 + r1;
    assert y % 100 == r1;
    assert r1 == 10 * (r1 / 10) + r1 % 10;
    assert y % 10 == r1 % 10;
  }

  lemma {:induction false} ParseFormatIsoDate(d: CalDate)
    requires 0 <= d.year <= 9999
    ensures ParseIsoDate(FormatIsoDate(d)) == Some(d)
  {
    var s := FormatIsoDate(d);
    var y := d.year;
    FourDigits(y);
    assert DigitValue(s[0]) == y / 1000 && DigitValue(s[1]) == y % 1000 / 100;
    assert DigitValue(s[2]) == y % 100 / 10 && DigitValue(s[3]) == y % 10;
    assert DigitValue(s[5]) == d.month / 10 && DigitValue(s[6]) == d.month % 10;
    assert DigitValue(s[8]) == d.day / 10 && DigitValue(s[9]) == d.day % 10;
  }

  /** The digits of a four-digit year are read back from their value. */
  lemma YearDigits(a: int, b: int, c: int, d: int)
    requires 0 <= a <= 9 && 0 <= b <= 9 && 0 <= c <= 9 && 0 <= d <= 9
    ensures var y := 1000 * a + 100 * b + 10 * c + d;
            y / 1000 == a && y % 1000 / 100 == b && y % 100 / 10 == c && y % 10 == d
  {
    var y := 1000 * a + 100 * b + 10 * c + d;
    assert 0 <= 100 * b + 10 * c + d < 1000;
    assert y % 1000 == 100 * b + 10 * c + d;
    assert 0 <= 10 * c + d < 100;
    assert y % 100 == 10 * c + d;
  }

  lemma DigitRoundTrip(ch: char)
    requires IsDigit(ch)
    ensures DigitChar(DigitValue(ch)) == ch
  {
  }

  lemma TwoDigits(a: int, b: int)
    requires 0 <= a <= 9 && 0 <= b <= 9
    ensures (10 * a + b) / 10 == a && (10 * a + b) % 10 == b
  {
  }

  /** The text of the date an ISO-shaped text spells is that text. */
  lemma FormatOfSpelledDate(s: string)
    requires IsoShaped(s) && 1 <= MonthText(s) <= 12 && 1 <= DayText(s) <= DaysInMonth(YearText(s), MonthText(s))
    ensures FormatIsoDate(Date(YearText(s), MonthText(s), DayText(s))) == s
  {
    var t := FormatIsoDate(Date(YearText(s), MonthText(s), DayText(s)));
    YearDigits(DigitValue(s[0]), DigitValue(s[1]), DigitValue(s[2]), DigitValue(s[3]));
    TwoDigits(DigitValue(s[5]), DigitValue(s[6]));
    TwoDigits(DigitValue(s[8]), DigitValue(s[9]));
    DigitRoundTrip(s[0]);
    DigitRoundTrip(s[1]);
    DigitRoundTrip(s[2]);
    DigitRoundTrip(s[3]);
    DigitRoundTrip(s[5]);
    DigitRoundTrip(s[6]);
    DigitRoundTrip(s[8]);
    DigitRoundTrip(s[9]);
    assert t == s;
  }

  /** A text naming a day that exists in its month parses, and formats back to the same text. */
  lemma FormatParseIsoDate(s: string)
    requires IsoShaped(s) && 1 <= MonthText(s) <= 12 && 1 <= DayText(s) <= DaysInMonth(YearText(s), MonthText(s))
    ensures ParseIsoDate(s).Some? && FormatIsoDate(ParseIsoDate(s).value) == s
  {
    IsoDateValue(s);
    FormatOfSpelledDate(s);
  }
}
