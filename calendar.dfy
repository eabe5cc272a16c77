/**
 * Calendar dates as the ledger stores them ("YYYY-MM-DD", no time zone).
 * The date-fns helpers the core calls (startOfMonth/endOfMonth membership,
 * subDays, differenceInMonths, toISOString().split("T")[0], parseISO) are
 * modelled here on calendar triples, in one proleptic Gregorian calendar.
 */
module Calendar {
  import opened Common

  /** A year, month (1..12) and day as written in an ISO date. */
  datatype Ymd = Ymd(year: int, month: int, day: int)

  predicate IsLeapYear(y: int)
  {
    y % 4 == 0 && (y % 100 != 0 || y % 400 == 0)
  }

  function DaysInMonth(y: int, m: int): (n: int)
    requires 1 <= m <= 12
    ensures 28 <= n <= 31
    ensures n == 29 <==> m == 2 && IsLeapYear(y)
  {
    if m == 2 then (if IsLeapYear(y) then 29 else 28)
    else if m == 4 || m == 6 || m == 9 || m == 11 then 30
    else 31
  }

  predicate ValidYmd(d: Ymd)
  {
    1 <= d.month <= 12 && 1 <= d.day <= DaysInMonth(d.year, d.month)
  }

  /** A real calendar day. */
  type Date = d: Ymd | ValidYmd(d) witness Ymd(1970, 1, 1)

  /** Months counted from January of year 0; consecutive months have consecutive indices. */
  function MonthIndex(d: Date): int
  {
    d.year * 12 + d.month - 1
  }

  /** Year and month (1..12) of a month index: the inverse of MonthIndex. */
  function YearOfMonthIndex(k: int): int { k / 12 }
  function MonthOfMonthIndex(k: int): (m: int)
    ensures 1 <= m <= 12
  {
    k % 12 + 1
  }

  lemma MonthIndexLabel(d: Date)
    ensures YearOfMonthIndex(MonthIndex(d)) == d.year
    ensures MonthOfMonthIndex(MonthIndex(d)) == d.month
  {
    var k := MonthIndex(d);
    assert k == d.year * 12 + (d.month - 1);
  }

  function DaysInYear(y: int): int
  {
    if IsLeapYear(y) then 366 else 365
  }

  /** Days from 1 January of year 1 to 1 January of year y (negative before year 1). */
  function DaysBeforeYear(y: int): int
    decreases if y >= 1 then y - 1 else 1 - y
  {
    if y == 1 then 0
    else if y > 1 then DaysBeforeYear(y - 1) + DaysInYear(y - 1)
    else DaysBeforeYear(y + 1) - DaysInYear(y)
  }

  function DaysBeforeMonth(y: int, m: int): int
    requires 1 <= m <= 12
  {
    (if m == 1 then 0 else if m == 2 then 31 else if m == 3 then 59
     else if m == 4 then 90 else if m == 5 then 120 else if m == 6 then 151
     else if m == 7 then 181 else if m == 8 then 212 else if m == 9 then 243
     else if m == 10 then 273 else if m == 11 then 304 else 334)
    + (if m > 2 && IsLeapYear(y) then 1 else 0)
  }

  /** Days since 1 January of year 1 (negative before it): the day of a calendar date. */
  function DayNumber(d: Date): int
  {
    DaysBeforeYear(d.year) + DaysBeforeMonth(d.year, d.month) + d.day - 1
  }

  /** The calendar day after `d`. */
  function NextDay(d: Date): Date
  {
    if d.day < DaysInMonth(d.year, d.month) then Ymd(d.year, d.month, d.day + 1)
    else if d.month < 12 then Ymd(d.year, d.month + 1, 1)
    else Ymd(d.year + 1, 1, 1)
  }

  /** Day numbers count calendar days: the next day is one more. */
  lemma {:induction false} DayNumberNextDay(d: Date)
    ensures DayNumber(NextDay(d)) == DayNumber(d) + 1
  {
    if d.day == DaysInMonth(d.year, d.month) && d.month == 12 {
      assert DaysBeforeYear(d.year + 1) == DaysBeforeYear(d.year) + DaysInYear(d.year);
    }
  }

  /**
   * differenceInMonths(later, earlier): the number of whole months from
   * `earlier` to `later`, negative when `later` is the earlier date. A month
   * is whole once the day of the month has been reached again.
   */
  function MonthsBetween(later: Date, earlier: Date): int
  {
    var calendarMonths := MonthIndex(later) - MonthIndex(earlier);
    if calendarMonths > 0 then
      (if later.day < earlier.day then calendarMonths - 1 else calendarMonths)
    else if calendarMonths < 0 then
      (if later.day > earlier.day then calendarMonths + 1 else calendarMonths)
    else 0
  }

  lemma MonthsBetweenBounds(later: Date, earlier: Date)
    ensures MonthIndex(later) - MonthIndex(earlier) - 1 <= MonthsBetween(later, earlier)
    ensures MonthsBetween(later, earlier) >= 1 ==> MonthIndex(earlier) < MonthIndex(later)
    ensures MonthIndex(later) == MonthIndex(earlier) ==> MonthsBetween(later, earlier) == 0
  {
  }

  // ---------------------------------------------------------------------
  // ISO dates: toISOString().split("T")[0] and the parse of "YYYY-MM-DD"

  function Pow10(n: nat): (p: nat)
    ensures p >= 1
  {
    if n == 0 then 1 else 10 * Pow10(n - 1)
  }

  function Digit(n: int): char
    requires 0 <= n <= 9
  {
    (48 + n) as char
  }

  predicate IsDigit(c: char)
  {
    '0' <= c <= '9'
  }

  function DigitValue(c: char): int
  {
    c as int - 48
  }

  /** The last `width` decimal digits of `n`, zero padded. */
  function Digits(n: nat, width: nat): (s: string)
    ensures |s| == width
    ensures forall i :: 0 <= i < width ==> IsDigit(s[i])
  {
    if width == 0 then [] else Digits(n / 10, width - 1) + [Digit(n % 10)]
  }

  /** The value of a string of decimal digits. */
  function Number(s: string): int
  {
    if s == [] then 0 else 10 * Number(s[..|s| - 1]) + DigitValue(s[|s| - 1])
  }

  lemma {:induction false} NumberOfDigits(n: nat, width: nat)
    requires n < Pow10(width)
    ensures Number(Digits(n, width)) == n
  {
    if width > 0 {
      var s := Digits(n, width);
      assert s[..|s| - 1] == Digits(n / 10, width - 1);
      NumberOfDigits(n / 10, width - 1);
    }
  }

  /** The year part of toISOString: four digits, or a sign and six digits. */
  function IsoYear(y: int): string
  {
    if 0 <= y <= 9999 then Digits(y, 4)
    else if y < 0 then "-" + Digits(-y, 6)
    else "+" + Digits(y, 6)
  }

  function IsoDate(d: Date): (s: string)
    ensures 0 <= d.year <= 9999 ==> |s| == 10
  {
    IsoYear(d.year) + "-" + Digits(d.month, 2) + "-" + Digits(d.day, 2)
  }

  /** Reads "YYYY-MM-DD"; None unless the string is such a date of the calendar. */
  function ParseIsoDate(s: string): (r: Option<Date>)
    ensures r.Some? ==> |s| == 10 && s[4] == '-' && s[7] == '-'
  {
    if |s| == 10 && s[4] == '-' && s[7] == '-'
       && (forall i :: 0 <= i < 10 && i != 4 && i != 7 ==> IsDigit(s[i]))
    then
      var d := Ymd(Number(s[..4]), Number(s[5..7]), Number(s[8..]));
      if ValidYmd(d) then Some(d) else None
    else None
  }

  /** Formatting a date and reading it back gives the same date. */
  lemma IsoDateRoundTrip(d: Date)
    requires 0 <= d.year <= 9999
    ensures ParseIsoDate(IsoDate(d)) == Some(d)
  {
    var y, m, dd := Digits(d.year, 4), Digits(d.month, 2), Digits(d.day, 2);
    var s := IsoDate(d);
    assert s == y + "-" + m + "-" + dd;
    assert s[..4] == y && s[5..7] == m && s[8..] == dd;
    forall i | 0 <= i < 10 && i != 4 && i != 7
      ensures IsDigit(s[i])
    {
      if i < 4 {
        assert s[i] == y[i];
      } else if i < 7 {
        assert s[i] == m[i - 5];
      } else {
        assert s[i] == dd[i - 8];
      }
    }
    assert Pow10(2) == 100 && Pow10(4) == 10000;
    NumberOfDigits(d.year, 4);
    NumberOfDigits(d.month, 2);
    NumberOfDigits(d.day, 2);
  }
}
