/** Days, months and years: the closed form for the first day of a month, and the calendar it counts. */
module Calendar {
  import opened Arithmetic

  const MONTHS: seq<int> := [0, 31, 59, 90, 120, 151, 181, 212, 243, 273, 304, 334, 365]

  /** `dayFromMonth`: days from 1 January 1970 to the first of a month; months count from 0, and 12 is the next January. */
  function DayFromMonth(year: int, month: int): int
    requires 0 <= month <= 12
  {
    var t := if month > 1 then 1 else 0;
    MONTHS[month] + (year - 1969 + t) / 4 - (year - 1901 + t) / 100 + (year - 1601 + t) / 400 + 365 * (year - 1970)
  }

  // ------------------------------------------------------------------------
  // The Gregorian calendar (sections 15.9.1.3 to 15.9.1.5 of ECMA-262, edition 5.1)
  // ------------------------------------------------------------------------

  predicate IsLeap(y: int) {
    y % 4 == 0 && (y % 100 != 0 || y % 400 == 0)
  }

  function MonthLength(y: int, m: int): int
    requires 0 <= m < 12
  {
    if m == 1 then if IsLeap(y) then 29 else 28
    else if m in {3, 5, 8, 10} then 30
    else 31
  }

  /** Days in the first m months. */
  function MonthStart(y: int, m: int): int
    requires 0 <= m <= 12
  {
    if m == 0 then 0 else MonthStart(y, m - 1) + MonthLength(y, m - 1)
  }

  function YearLength(y: int): int {
    if IsLeap(y) then 366 else 365
  }

  /** Days from the start of 1970 to the start of a year, counted year by year. */
  function YearStart(y: int): int
    decreases if y < 1970 then 1970 - y else y - 1970
  {
    if y == 1970 then 0
    else if y > 1970 then YearStart(y - 1) + YearLength(y - 1)
    else YearStart(y + 1) - YearLength(y)
  }

  lemma {:induction false} YearAfterYear(y: int)
    ensures YearStart(y + 1) == YearStart(y) + YearLength(y)
  {
    if y >= 1970 {
      assert YearStart(y + 1) == YearStart(y) + YearLength(y);
    } else {
      assert YearStart(y) == YearStart(y + 1) - YearLength(y);
    }
  }

  /** Leap days before the first of March of a year, counted from 1970. */
  function Leaps(y: int): int {
    (y - 1969) / 4 - (y - 1901) / 100 + (y - 1601) / 400
  }

  function LeapDay(y: int): int {
    if IsLeap(y) then 1 else 0
  }

  /** A quotient grows by one exactly when the divisor is met. */
  lemma {:induction false} Floors(a: int, n: int)
    requires n == 4 || n == 100 || n == 400
    ensures (a + 1) / n - a / n == if (a + 1) % n == 0 then 1 else 0
  {
  }

  lemma {:induction false} Multiples(y: int, n: int, k: int)
    requires n > 0
    ensures y == n * k ==> y % n == 0
  {
    if y == n * k {
      DivModUnique(n, y / n, y % n, k, 0);
    }
  }

  /** Moving by a multiple of n does not change whether n divides. */
  lemma {:induction false} Moved(y: int, n: int, k: int)
    requires n > 0
    ensures (y - n * k) % n == 0 <==> y % n == 0
  {
    var a := y - n * k;
    if a % n == 0 {
      assert y == n * (a / n + k);
      Multiples(y, n, a / n + k);
    }
    if y % n == 0 {
      assert a == n * (y / n - k);
      Multiples(a, n, y / n - k);
    }
  }

  /** What 400 divides, 100 does; and what 100 divides, 4 does. */
  lemma {:induction false} Nested(y: int)
    ensures y % 400 == 0 ==> y % 100 == 0
    ensures y % 100 == 0 ==> y % 4 == 0
  {
    Multiples(y, 100, 4 * (y / 400));
    Multiples(y, 4, 25 * (y / 100));
  }

  lemma {:induction false} LeapsGrow(y: int)
    ensures Leaps(y + 1) == Leaps(y) + LeapDay(y)
  {
    Floors(y - 1969, 4);
    Floors(y - 1901, 100);
    Floors(y - 1601, 400);
    Moved(y, 4, 492);
    Moved(y, 100, 19);
    Moved(y, 400, 4);
    Nested(y);
  }

  lemma {:induction false} ByLeaps(y: int, m: int)
    requires 0 <= m <= 12
    ensures DayFromMonth(y, m) == MONTHS[m] + Leaps(if m > 1 then y + 1 else y) + 365 * (y - 1970)
  {
  }

  lemma {:induction false} ClosedYear(y: int)
    ensures DayFromMonth(y + 1, 0) == DayFromMonth(y, 0) + YearLength(y)
  {
    hide DayFromMonth, Leaps;
    ByLeaps(y, 0);
    ByLeaps(y + 1, 0);
    LeapsGrow(y);
  }

  lemma {:induction false} StartOf1970()
    ensures DayFromMonth(1970, 0) == 0
  {
  }

  lemma {:induction false} YearStartIs(y: int)
    ensures DayFromMonth(y, 0) == YearStart(y)
    decreases if y < 1970 then 1970 - y else y - 1970
  {
    hide DayFromMonth, YearLength;
    if y == 1970 {
      StartOf1970();
    } else if y > 1970 {
      YearStartIs(y - 1);
      ClosedYear(y - 1);
    } else {
      YearStartIs(y + 1);
      ClosedYear(y);
    }
  }

  lemma {:induction false} MonthTable(y: int, m: int)
    requires 0 <= m <= 12
    ensures MonthStart(y, m) == MONTHS[m] + if m > 1 then LeapDay(y) else 0
    decreases m
  {
    hide IsLeap;
    if m > 0 {
      MonthTable(y, m - 1);
      assert MONTHS[m] - MONTHS[m - 1] == if m == 2 then 28 else if m - 1 in {3, 5, 8, 10} then 30 else 31;
    }
  }

  lemma {:induction false} ClosedMonth(y: int, m: int)
    requires 0 <= m <= 12
    ensures DayFromMonth(y, m) == DayFromMonth(y, 0) + MonthStart(y, m)
  {
    hide DayFromMonth, Leaps, MonthStart, LeapDay;
    ByLeaps(y, m);
    ByLeaps(y, 0);
    MonthTable(y, m);
    LeapsGrow(y);
  }

  /**
    The closed form counts the days of the calendar, for every year; so the difference of two
    months is the month's length, and a year's twelfth month is the next year's first.
  */
  lemma {:induction false} DayCount(y: int, m: int)
    requires 0 <= m <= 12
    ensures DayFromMonth(y, m) == YearStart(y) + MonthStart(y, m)
    ensures m < 12 ==> DayFromMonth(y, m + 1) - DayFromMonth(y, m) == MonthLength(y, m)
    ensures DayFromMonth(y, 12) == DayFromMonth(y + 1, 0)
  {
    hide DayFromMonth, YearStart;
    YearStartIs(y);
    ClosedMonth(y, m);
    ClosedMonth(y, 12);
    TwelveMonths(y);
    ClosedYear(y);
    if m < 12 {
      ClosedMonth(y, m + 1);
    }
  }

  lemma {:induction false} TwelveMonths(y: int)
    ensures MonthStart(y, 12) == YearLength(y)
  {
    MonthTable(y, 12);
  }

  // ------------------------------------------------------------------------
  // Dates and day numbers
  // ------------------------------------------------------------------------

  /** A date; months count from 0 and days from 1. */
  datatype Date = Date(year: int, month: int, day: int)

  predicate IsDate(d: Date) {
    0 <= d.month < 12 && 1 <= d.day <= MonthLength(d.year, d.month)
  }

  function DayNumber(d: Date): int
    requires IsDate(d)
  {
    YearStart(d.year) + MonthStart(d.year, d.month) + d.day - 1
  }

  function NextDay(d: Date): (r: Date)
    requires IsDate(d)
    ensures IsDate(r)
  {
    if d.day < MonthLength(d.year, d.month) then d.(day := d.day + 1)
    else if d.month < 11 then Date(d.year, d.month + 1, 1)
    else Date(d.year + 1, 0, 1)
  }

  function DayBefore(d: Date): (r: Date)
    requires IsDate(d)
    ensures IsDate(r)
  {
    if d.day > 1 then d.(day := d.day - 1)
    else if d.month > 0 then Date(d.year, d.month - 1, MonthLength(d.year, d.month - 1))
    else Date(d.year - 1, 11, 31)
  }

  lemma {:induction false} NextDayNumber(d: Date)
    requires IsDate(d)
    ensures DayNumber(NextDay(d)) == DayNumber(d) + 1
  {
    hide YearStart;
    if d.day == MonthLength(d.year, d.month) && d.month == 11 {
      YearAfterYear(d.year);
      TwelveMonths(d.year);
    }
  }

  lemma {:induction false} DayBeforeNumber(d: Date)
    requires IsDate(d)
    ensures DayNumber(DayBefore(d)) == DayNumber(d) - 1
  {
    hide YearStart;
    if d.day == 1 && d.month == 0 {
      YearAfterYear(d.year - 1);
      TwelveMonths(d.year - 1);
    }
  }

  /** The date of a day number, one day at a time. */
  function DateOf(n: int): (d: Date)
    ensures IsDate(d)
    decreases if n < 0 then -n else n
  {
    if n == 0 then Date(1970, 0, 1)
    else if n > 0 then NextDay(DateOf(n - 1))
    else DayBefore(DateOf(n + 1))
  }

  lemma {:induction false} DateOfDay(n: int)
    ensures DayNumber(DateOf(n)) == n
    decreases if n < 0 then -n else n
  {
    hide NextDay, DayBefore;
    if n > 0 {
      DateOfDay(n - 1);
      NextDayNumber(DateOf(n - 1));
    } else if n < 0 {
      DateOfDay(n + 1);
      DayBeforeNumber(DateOf(n + 1));
    }
  }

  predicate Earlier(a: Date, b: Date) {
    a.year < b.year || (a.year == b.year && (a.month < b.month || (a.month == b.month && a.day < b.day)))
  }

  lemma {:induction false} MonthsGrow(y: int, m: int, n: int)
    requires 0 <= m < n <= 12
    ensures MonthStart(y, m) + MonthLength(y, m) <= MonthStart(y, n)
    decreases n - m
  {
    if m + 1 < n {
      MonthsGrow(y, m + 1, n);
    }
  }

  lemma {:induction false} YearsGrow(y: int, z: int)
    requires y < z
    ensures YearStart(y) + YearLength(y) <= YearStart(z)
    decreases z - y
  {
    hide YearStart;
    YearAfterYear(y);
    if y + 1 < z {
      YearsGrow(y + 1, z);
    }
  }

  /** Day numbers grow with dates. */
  lemma {:induction false} DaysGrow(a: Date, b: Date)
    requires IsDate(a) && IsDate(b) && Earlier(a, b)
    ensures DayNumber(a) < DayNumber(b)
  {
    hide YearStart, MonthStart, MonthLength, YearLength;
    if a.year < b.year {
      YearsGrow(a.year, b.year);
      TwelveMonths(a.year);
      MonthsGrow(a.year, a.month, 12);
      if b.month > 0 {
        MonthsGrow(b.year, 0, b.month);
      }
      NotNegative(a.year, b.year, b.month);
    } else if a.month < b.month {
      MonthsGrow(a.year, a.month, b.month);
    }
  }

  lemma {:induction false} NotNegative(y: int, z: int, m: int)
    requires 0 <= m < 12
    ensures MonthLength(y, m) > 0 && MonthStart(z, m) >= 0
    decreases m
  {
    if m > 0 {
      NotNegative(y, z, m - 1);
    }
  }
}
