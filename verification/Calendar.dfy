/** Python's `datetime` calendar: the proleptic Gregorian dates of years 1 to 9999 and their day numbers. */
module Calendar {

  datatype Date = Date(year: int, month: int, day: int)

  predicate IsLeap(y: int) {
    y % 4 == 0 && (y % 100 != 0 || y % 400 == 0)
  }

  const MONTH_DAYS := [31, 28, 31, 30, 31, 30, 31, 31, 30, 31, 30, 31]
  const DAYS_BEFORE := [0, 31, 59, 90, 120, 151, 181, 212, 243, 273, 304, 334]
  const LAST_DAY := 3652059
  const DAY_MICROS := 86_400_000_000

  function DaysInMonth(y: int, m: int): int
    requires 1 <= m <= 12
  {
    MONTH_DAYS[m - 1] + if m == 2 && IsLeap(y) then 1 else 0
  }

  /** The dates `datetime(year, month, day)` accepts; it raises ValueError on all others. */
  predicate ValidDate(d: Date) {
    1 <= d.year <= 9999 && 1 <= d.month <= 12 && 1 <= d.day <= DaysInMonth(d.year, d.month)
  }

  function YearLength(y: int): int {
    if IsLeap(y) then 366 else 365
  }

  function DaysBeforeYear(y: int): int {
    (y - 1) * 365 + (y - 1) / 4 - (y - 1) / 100 + (y - 1) / 400
  }

  function DayOfYear(d: Date): int
    requires 1 <= d.month <= 12
  {
    DAYS_BEFORE[d.month - 1] + (if d.month > 2 && IsLeap(d.year) then 1 else 0) + d.day
  }

  /** `toordinal()`: day 1 is the first of January of year 1. */
  function Ordinal(d: Date): int
    requires 1 <= d.month <= 12
  {
    DaysBeforeYear(d.year) + DayOfYear(d)
  }

  /** `weekday()` of a day number: Monday is 0. */
  function Weekday(ordinal: int): (w: int)
    ensures 0 <= w < 7
  {
    (ordinal + 6) % 7
  }

  lemma WeekdayPlus(ordinal: int, days: int)
    requires 0 <= Weekday(ordinal) + days < 14
    ensures Weekday(ordinal + days) == (if Weekday(ordinal) + days < 7 then 0 else -7) + Weekday(ordinal) + days
  {
  }

  /** The Monday of the calendar week a day belongs to. */
  function WeekStart(ordinal: int): int {
    ordinal - Weekday(ordinal)
  }

  predicate Before(a: Date, b: Date) {
    a.year < b.year || (a.year == b.year && (a.month < b.month || (a.month == b.month && a.day < b.day)))
  }

  lemma YearStep(y: int)
    ensures DaysBeforeYear(y + 1) == DaysBeforeYear(y) + YearLength(y)
  {
    assert y / 4 == (y - 1) / 4 + if y % 4 == 0 then 1 else 0;
    assert y / 100 == (y - 1) / 100 + if y % 100 == 0 then 1 else 0;
    assert y / 400 == (y - 1) / 400 + if y % 400 == 0 then 1 else 0;
  }

  lemma {:induction false} YearsApart(a: int, b: int)
    requires a <= b
    ensures DaysBeforeYear(b) >= DaysBeforeYear(a) + 365 * (b - a)
    decreases b - a
  {
    if a < b {
      YearsApart(a, b - 1);
      YearStep(b - 1);
    }
  }

  lemma MonthEnds(y: int, m: int, n: int)
    requires 1 <= m < n <= 12
    ensures DayOfYear(Date(y, m, DaysInMonth(y, m))) < DayOfYear(Date(y, n, 1))
  {
  }

  lemma WithinYear(d: Date)
    requires ValidDate(d)
    ensures 1 <= DayOfYear(d) <= YearLength(d.year)
  {
  }

  function NextDay(d: Date): (r: Date)
    requires ValidDate(d)
    ensures 1 <= r.month <= 12
  {
    if d.day < DaysInMonth(d.year, d.month) then d.(day := d.day + 1)
    else if d.month < 12 then Date(d.year, d.month + 1, 1)
    else Date(d.year + 1, 1, 1)
  }

  lemma NextDayOfYear(d: Date)
    requires ValidDate(d)
    ensures if NextDay(d).year == d.year then DayOfYear(NextDay(d)) == DayOfYear(d) + 1
            else NextDay(d) == Date(d.year + 1, 1, 1) && DayOfYear(d) == YearLength(d.year)
  {
  }

  /** Day numbers count days: the next day has the next number. */
  lemma OrdinalCountsDays(d: Date)
    requires ValidDate(d)
    ensures Ordinal(NextDay(d)) == Ordinal(d) + 1
  {
    NextDayOfYear(d);
    if NextDay(d).year != d.year {
      YearStep(d.year);
    }
  }

  /** Day numbers order dates exactly as year, month and day do, so each day has one number. */
  lemma OrdinalOrder(a: Date, b: Date)
    requires ValidDate(a) && ValidDate(b)
    ensures Before(a, b) <==> Ordinal(a) < Ordinal(b)
    ensures a == b <==> Ordinal(a) == Ordinal(b)
  {
    if Before(a, b) {
      OrdinalIncreases(a, b);
    } else if Before(b, a) {
      OrdinalIncreases(b, a);
    }
  }

  lemma OrdinalIncreases(a: Date, b: Date)
    requires ValidDate(a) && ValidDate(b) && Before(a, b)
    ensures Ordinal(a) < Ordinal(b)
  {
    if a.year < b.year {
      YearStep(a.year);
      YearsApart(a.year + 1, b.year);
      WithinYear(a);
      WithinYear(b);
    } else if a.month < b.month {
      MonthEnds(a.year, a.month, b.month);
    }
  }

  /** Every valid date has a day number in `date.min .. date.max`. */
  lemma OrdinalRange(d: Date)
    requires ValidDate(d)
    ensures 1 <= Ordinal(d) <= LAST_DAY
  {
    assert DaysBeforeYear(1) == 0 && DaysBeforeYear(10000) == LAST_DAY;
    WithinYear(d);
    YearsApart(1, d.year);
    YearStep(d.year);
    YearsApart(d.year + 1, 10000);
  }

  lemma LastDay(d: Date)
    requires ValidDate(d) && NextDay(d).year == 10000
    ensures Ordinal(d) == LAST_DAY
  {
    NextDayOfYear(d);
    YearStep(9999);
    assert DaysBeforeYear(10000) == LAST_DAY;
  }

  /** The calendar goes on until its last day. */
  lemma NextDayIsValid(d: Date)
    requires ValidDate(d) && Ordinal(d) < LAST_DAY
    ensures ValidDate(NextDay(d)) && Ordinal(NextDay(d)) == Ordinal(d) + 1
  {
    OrdinalCountsDays(d);
    if NextDay(d).year == 10000 {
      LastDay(d);
    }
  }

  /** The date `days` days after the first of January of year 1, counted day by day. */
  function DayAfter(days: nat): (d: Date)
    ensures 1 <= d.month <= 12
  {
    if days == 0 then Date(1, 1, 1)
    else
      var d := DayAfter(days - 1);
      if ValidDate(d) then NextDay(d) else d
  }

  ghost predicate HasNumber(d: Date, number: int) {
    ValidDate(d) && Ordinal(d) == number
  }

  /** The count starts on the first of January of year 1. */
  lemma FirstDay(d: Date)
    requires d.year == 1 && d.month == 1 && d.day == 1
    ensures HasNumber(d, 1)
  {
    assert DaysBeforeYear(d.year) == 0;
    assert DayOfYear(d) == 1;
  }

  lemma NextHasNumber(d: Date, number: int)
    requires HasNumber(d, number) && number < LAST_DAY
    ensures HasNumber(NextDay(d), number + 1)
  {
    NextDayIsValid(d);
  }

  /** Counting that far gives the date with that number. */
  lemma {:induction false} DayAfterHasNumber(days: nat)
    requires days < LAST_DAY
    ensures HasNumber(DayAfter(days), days + 1)
  {
    if days == 0 {
      FirstDay(DayAfter(days));
    } else {
      DayAfterHasNumber(days - 1);
      NextHasNumber(DayAfter(days - 1), days);
    }
  }

  lemma WeekdayOfNumber(d: Date, days: nat)
    requires HasNumber(d, days + 1)
    ensures Weekday(Ordinal(d)) == days % 7
  {
  }

  /** The weekdays follow each other from a Monday, the first of January of year 1. */
  lemma WeekdaysCycle(days: nat)
    requires days < LAST_DAY
    ensures Weekday(Ordinal(DayAfter(days))) == days % 7
  {
    DayAfterHasNumber(days);
    WeekdayOfNumber(DayAfter(days), days);
  }

  /** Day numbers and valid dates correspond one to one: counting from the first day undoes `Ordinal`. */
  lemma OrdinalRoundTrip(d: Date)
    requires ValidDate(d)
    ensures 1 <= Ordinal(d) <= LAST_DAY && DayAfter(Ordinal(d) - 1) == d
  {
    OrdinalRange(d);
    DayAfterHasNumber(Ordinal(d) - 1);
    OrdinalOrder(DayAfter(Ordinal(d) - 1), d);
  }

  /** The same calendar day in a later year is at least 365 days a year away, and in the next one at most 366. */
  lemma SameDayApart(d: Date, years: int)
    requires years > 0 && ValidDate(d) && ValidDate(d.(year := d.year + years))
    ensures Ordinal(d.(year := d.year + years)) >= Ordinal(d) + 365 * years
    ensures years == 1 ==> Ordinal(d.(year := d.year + 1)) <= Ordinal(d) + 366
  {
    YearStep(d.year);
    YearsApart(d.year + 1, d.year + years);
  }
}
