// The proleptic Gregorian calendar of Python's `datetime`.
module Calendar {

  datatype Date = Date(year: nat, month: nat, day: nat)

  predicate IsLeap(year: nat) {
    year % 4 == 0 && (year % 100 != 0 || year % 400 == 0)
  }

  function MonthLength(month: nat, leap: bool): (n: nat)
    ensures 28 <= n <= 31
  {
    if month == 2 then (if leap then 29 else 28)
    else if month == 4 || month == 6 || month == 9 || month == 11 then 30
    else 31
  }

  predicate ValidDate(d: Date) {
    1 <= d.year && 1 <= d.month <= 12 && 1 <= d.day <= MonthLength(d.month, IsLeap(d.year))
  }

  /** Adding one day: the carry into month and year. */
  function NextDay(d: Date): (r: Date)
    requires ValidDate(d)
    ensures ValidDate(r)
  {
    if d.day < MonthLength(d.month, IsLeap(d.year)) then d.(day := d.day + 1)
    else if d.month < 12 then Date(d.year, d.month + 1, 1)
    else Date(d.year + 1, 1, 1)
  }

  function YearDays(year: nat): nat {
    if IsLeap(year) then 366 else 365
  }

  function DaysBeforeYear(year: nat): nat
    requires 1 <= year
  {
    if year == 1 then 0 else DaysBeforeYear(year - 1) + YearDays(year - 1)
  }

  function DaysBeforeMonth(month: nat, leap: bool): (n: nat)
    requires 1 <= month <= 13
    decreases month
  {
    if month == 1 then 0 else DaysBeforeMonth(month - 1, leap) + MonthLength(month - 1, leap)
  }

  /** Days from 0001-01-01: `toordinal() - 1`. */
  function DayNumber(d: Date): (n: nat)
    requires ValidDate(d)
  {
    DaysBeforeYear(d.year) + DaysBeforeMonth(d.month, IsLeap(d.year)) + d.day - 1
  }

  /** The date reached by stepping `n` days on from 0001-01-01. */
  function DateOf(n: nat): (d: Date)
    ensures ValidDate(d)
  {
    if n == 0 then Date(1, 1, 1) else NextDay(DateOf(n - 1))
  }

  /** `datetime.weekday()`: Monday is 0, and 0001-01-01 is a Monday. */
  function Weekday(n: nat): (w: nat)
    ensures w < 7
  {
    n % 7
  }

  lemma FourthYears(y: nat)
    requires y >= 1
    ensures y / 4 == (y - 1) / 4 + (if y % 4 == 0 then 1 else 0)
  {
  }

  lemma HundredthYears(y: nat)
    requires y >= 1
    ensures y / 100 == (y - 1) / 100 + (if y % 100 == 0 then 1 else 0)
  {
  }

  lemma FourHundredthYears(y: nat)
    requires y >= 1
    ensures y / 400 == (y - 1) / 400 + (if y % 400 == 0 then 1 else 0)
  {
  }

  lemma FourTimes(q: nat)
    ensures (4 * q) % 4 == 0
  {
  }

  lemma HundredTimes(q: nat)
    ensures (100 * q) % 100 == 0
  {
  }

  /** Every hundredth year is a fourth year, and every four-hundredth a hundredth. */
  lemma YearsNest(y: nat)
    ensures y % 100 == 0 ==> y % 4 == 0
    ensures y % 400 == 0 ==> y % 100 == 0
  {
    var c, f := y / 100, y / 400;
    FourTimes(25 * c);
    HundredTimes(4 * f);
    assert y % 100 == 0 ==> y == 4 * (25 * c);
    assert y % 400 == 0 ==> y == 100 * (4 * f);
  }

  /** The usual closed form: 365 days a year, and the leap days by fours, hundreds and four hundreds. */
  lemma {:induction false} DaysBeforeYearClosedForm(year: nat)
    requires 1 <= year
    ensures DaysBeforeYear(year) == (year - 1) * 365 + (year - 1) / 4 - (year - 1) / 100 + (year - 1) / 400
  {
    if year == 1 {
    } else {
      DaysBeforeYearClosedForm(year - 1);
      FourthYears(year - 1);
      HundredthYears(year - 1);
      FourHundredthYears(year - 1);
      YearsNest(year - 1);
    }
  }

  lemma FirstDay(year: nat)
    requires 1 <= year
    ensures DayNumber(Date(year, 1, 1)) == DaysBeforeYear(year)
  {
  }

  /** 1970-01-01 is day 719,162 and a Thursday. */
  lemma EpochIsThursday()
    ensures DayNumber(Date(1970, 1, 1)) == 719_162 && Weekday(719_162) == 3
  {
    DaysBeforeYearClosedForm(1970);
    FirstDay(1970);
  }

  /** The lengths of the twelve months. */
  lemma MonthLengths(month: nat, leap: bool)
    requires 1 <= month <= 12
    ensures MonthLength(month, leap) ==
            [31, if leap then 29 else 28, 31, 30, 31, 30, 31, 31, 30, 31, 30, 31][month - 1]
  {
  }

  /** The weekdays follow each other from a Monday on, and come round after Sunday. */
  lemma WeekdaysFollow(n: nat)
    ensures Weekday(0) == 0 && Weekday(n + 1) == if Weekday(n) == 6 then 0 else Weekday(n) + 1
  {
  }

  lemma MonthTable(leap: bool)
    ensures DaysBeforeMonth(13, leap) == (if leap then 366 else 365)
    ensures DaysBeforeMonth(2, leap) == 31
    ensures DaysBeforeMonth(3, leap) == (if leap then 60 else 59)
  {
    assert DaysBeforeMonth(1, leap) == 0;
    assert DaysBeforeMonth(2, leap) == 31;
    assert DaysBeforeMonth(3, leap) == if leap then 60 else 59;
    assert DaysBeforeMonth(4, leap) == if leap then 91 else 90;
    assert DaysBeforeMonth(5, leap) == if leap then 121 else 120;
    assert DaysBeforeMonth(6, leap) == if leap then 152 else 151;
    assert DaysBeforeMonth(7, leap) == if leap then 182 else 181;
    assert DaysBeforeMonth(8, leap) == if leap then 213 else 212;
    assert DaysBeforeMonth(9, leap) == if leap then 244 else 243;
    assert DaysBeforeMonth(10, leap) == if leap then 274 else 273;
    assert DaysBeforeMonth(11, leap) == if leap then 305 else 304;
    assert DaysBeforeMonth(12, leap) == if leap then 335 else 334;
  }

  lemma MonthStep(month: nat, leap: bool)
    requires 1 <= month <= 12
    ensures DaysBeforeMonth(month + 1, leap) == DaysBeforeMonth(month, leap) + MonthLength(month, leap)
    ensures forall b :: DaysBeforeMonth(1, b) == 0
  {
  }

  lemma YearStep(year: nat)
    requires 1 <= year
    ensures DaysBeforeYear(year + 1) == DaysBeforeYear(year) + DaysBeforeMonth(13, IsLeap(year))
  {
    MonthTable(IsLeap(year));
  }

  lemma NewYear(year: nat, december: nat, leap: bool)
    requires 1 <= year && december == 12 && leap == IsLeap(year)
    ensures DaysBeforeYear(year + 1) ==
        DaysBeforeYear(year) + DaysBeforeMonth(december, leap) + MonthLength(december, leap)
  {
    YearStep(year);
    MonthStep(december, leap);
  }

  lemma NextDayInYear(d: Date, leap: bool)
    requires ValidDate(d) && leap == IsLeap(d.year) && NextDay(d).year == d.year
    ensures DayNumber(NextDay(d)) == DayNumber(d) + 1
  {
    MonthStep(d.month, leap);
  }

  /** The next day is numbered one more, across month and year ends. */
  lemma DayNumberNext(d: Date)
    requires ValidDate(d)
    ensures DayNumber(NextDay(d)) == DayNumber(d) + 1
  {
    if NextDay(d).year == d.year {
      NextDayInYear(d, IsLeap(d.year));
    } else {
      NewYear(d.year, d.month, IsLeap(d.year));
      FirstDay(d.year + 1);
    }
  }

  /** The day number and the day-by-day date agree. */
  lemma {:induction false} DayNumberOfDate(n: nat)
    ensures DayNumber(DateOf(n)) == n
  {
    if n == 0 {
      MonthStep(1, false);
    } else {
      DayNumberOfDate(n - 1);
      DayNumberNext(DateOf(n - 1));
    }
  }

  lemma {:induction false} MonthsGrow(a: nat, b: nat, leap: bool)
    requires 1 <= a <= b <= 13
    ensures DaysBeforeMonth(a, leap) <= DaysBeforeMonth(b, leap)
    ensures a < b ==> DaysBeforeMonth(a, leap) + MonthLength(a, leap) <= DaysBeforeMonth(b, leap)
    decreases b - a
  {
    if a == b {
    } else {
      MonthsGrow(a + 1, b, leap);
    }
  }

  lemma {:induction false} YearsGrow(a: nat, b: nat)
    requires 1 <= a <= b
    ensures DaysBeforeYear(a) + 365 * (b - a) <= DaysBeforeYear(b)
    decreases b - a
  {
    if a == b {
    } else {
      YearsGrow(a + 1, b);
    }
  }

  /** A date lies inside its year. */
  lemma InsideYear(d: Date)
    requires ValidDate(d)
    ensures DaysBeforeYear(d.year) <= DayNumber(d) < DaysBeforeYear(d.year + 1)
  {
    var leap := IsLeap(d.year);
    MonthTable(leap);
    MonthsGrow(d.month, 13, leap);
  }

  /** Dates in different years are at least the years between them apart. */
  lemma YearsApart(a: Date, b: Date)
    requires ValidDate(a) && ValidDate(b)
    ensures a.year < b.year ==> DayNumber(a) + 365 * (b.year - a.year - 1) < DaysBeforeYear(b.year) <= DayNumber(b)
  {
    if a.year < b.year {
      InsideYear(a);
      InsideYear(b);
      YearsGrow(a.year + 1, b.year);
    }
  }

  /** Different dates have different day numbers. */
  lemma DayNumberInjective(a: Date, b: Date)
    requires ValidDate(a) && ValidDate(b) && DayNumber(a) == DayNumber(b)
    ensures a == b
  {
    InsideYear(a);
    InsideYear(b);
    if a.year < b.year {
      YearsGrow(a.year + 1, b.year);
    } else if b.year < a.year {
      YearsGrow(b.year + 1, a.year);
    } else if a.month < b.month {
      MonthsGrow(a.month, b.month, IsLeap(a.year));
    } else if b.month < a.month {
      MonthsGrow(b.month, a.month, IsLeap(a.year));
    }
  }

  /** Stepping day by day and the closed form are inverse to each other. */
  lemma DateOfDayNumber(d: Date)
    requires ValidDate(d)
    ensures DateOf(DayNumber(d)) == d
  {
    DayNumberOfDate(DayNumber(d));
    DayNumberInjective(DateOf(DayNumber(d)), d);
  }
}
