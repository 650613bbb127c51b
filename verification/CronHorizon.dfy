// When the 366-day search can and cannot fail: leap years, month lengths and weekdays.
module CronHorizon {
  import opened Core
  import opened Calendar
  import opened CronText
  import opened CronSearch

  ghost predicate AnyWeekday(f: Fields) {
    forall w :: 0 <= w <= 6 ==> w in f.weekdays
  }

  ghost predicate AnyDay(f: Fields) {
    forall d :: 1 <= d <= 31 ==> d in f.days
  }

  predicate AllowsDate(f: Fields, month: nat, day: nat) {
    month in f.months && day in f.days
  }

  /** Some allowed (month, day) occurs in a year of the given kind. */
  ghost predicate SomeDate(f: Fields, leap: bool) {
    exists month, day :: 1 <= month <= 12 && 1 <= day <= MonthLength(month, leap) && AllowsDate(f, month, day)
  }

  predicate AllowsTime(f: Fields, time: nat) {
    time < 1440 && time % 60 in f.minutes && time / 60 in f.hours
  }

  lemma InWholeRange(v: nat, minimum: nat, maximum: nat)
    requires minimum <= v <= maximum
    ensures v in Range(minimum, maximum + 1, 1)
  {
    assert OnStep(v, minimum, 1);
  }

  lemma PartsOfFields(parts: seq<string>)
    requires |parts| == 5 && ParseParts(parts).Ok?
    ensures ParseParts(parts).value.days == ParsePart(parts[2], 1, 31).value
    ensures ParseParts(parts).value.weekdays == ParsePart(parts[4], 0, 6).value
  {
  }

  /** A `*` field allows every value of its range. */
  lemma StarAllowsAll(expression: string)
    requires Normalised(expression)
    ensures var parts := Split(expression);
            && |parts| == 5
            && (parts[2] == "*" ==> AnyDay(FieldsOf(expression)))
            && (parts[4] == "*" ==> AnyWeekday(FieldsOf(expression)))
  {
    NormalisedSplits(expression);
    var parts, f := Split(expression), FieldsOf(expression);
    PartsOfFields(parts);
    if parts[2] == "*" {
      forall d | 1 <= d <= 31 ensures d in f.days {
        InWholeRange(d, 1, 31);
      }
    }
    if parts[4] == "*" {
      forall w | 0 <= w <= 6 ensures w in f.weekdays {
        InWholeRange(w, 0, 6);
      }
    }
  }

  // ----- days and minutes -----

  lemma MinuteParts(n: nat, time: nat)
    requires time < 1440
    ensures (n * 1440 + time) / 1440 == n
    ensures (n * 1440 + time) % 60 == time % 60
    ensures (n * 1440 + time) / 60 % 24 == time / 60
  {
    assert n * 1440 + time == 60 * (n * 24 + time / 60) + time % 60;
    assert (n * 1440 + time) / 60 == n * 24 + time / 60;
  }

  /** A minute matches exactly when its time of day, date and weekday are all allowed. */
  lemma MatchesParts(f: Fields, n: nat, time: nat)
    requires time < 1440
    ensures Matches(f, n * 1440 + time) <==>
              AllowsTime(f, time) && AllowsDate(f, DateOf(n).month, DateOf(n).day) && Weekday(n) in f.weekdays
  {
    MinuteParts(n, time);
  }

  lemma SomeTime(f: Fields) returns (time: nat)
    requires WellRanged(f)
    ensures AllowsTime(f, time)
  {
    var minute :| minute in f.minutes;
    var hour :| hour in f.hours;
    time := hour * 60 + minute;
    assert time / 60 == hour && time % 60 == minute;
  }

  /** The first day on which time of day `time` is still to come at minute `start`. */
  function FirstDayOfWindow(start: nat, time: nat): nat {
    if start % 1440 <= time then start / 1440 else start / 1440 + 1
  }

  /** Every time of day falls in the window on exactly 366 consecutive days. */
  lemma WindowDays(start: nat, time: nat, n: nat)
    requires time < 1440
    ensures start <= n * 1440 + time < start + WINDOW <==>
        FirstDayOfWindow(start, time) <= n < FirstDayOfWindow(start, time) + 366
  {
    var q, r := start / 1440, start % 1440;
    assert start == q * 1440 + r;
  }

  // ----- which dates 366 consecutive days contain -----

  lemma {:induction false} MonthLeapShift(month: nat, leap: bool)
    requires 1 <= month <= 13
    ensures DaysBeforeMonth(month, leap) == DaysBeforeMonth(month, false) + (if leap && month > 2 then 1 else 0)
  {
    if month == 1 {
    } else {
      MonthLeapShift(month - 1, leap);
    }
  }

  /** From one year to the next, every date but 29 February moves by 365 or 366 days. */
  lemma YearShift(year: nat, month: nat, day: nat)
    requires 1 <= year && 1 <= month <= 12 && 1 <= day <= MonthLength(month, false)
    ensures ValidDate(Date(year, month, day)) && ValidDate(Date(year + 1, month, day))
    ensures 365 <= DayNumber(Date(year + 1, month, day)) - DayNumber(Date(year, month, day)) <= 366
  {
    MonthLeapShift(month, IsLeap(year));
    MonthLeapShift(month, IsLeap(year + 1));
    assert IsLeap(year) ==> !IsLeap(year + 1);
  }

  /** 366 consecutive days contain every date that exists in every year. */
  lemma CommonDateWithin(first: nat, month: nat, day: nat) returns (n: nat)
    requires 1 <= month <= 12 && 1 <= day <= MonthLength(month, false)
    ensures first <= n < first + 366
    ensures DateOf(n).month == month && DateOf(n).day == day
  {
    var year := DateOf(first).year;
    YearShift(year, month, day);
    var here, there := Date(year, month, day), Date(year + 1, month, day);
    DayNumberOfDate(first);
    InsideYear(DateOf(first));
    InsideYear(here);
    InsideYear(there);
    n := if DayNumber(here) >= first then DayNumber(here) else DayNumber(there);
    DateOfDayNumber(here);
    DateOfDayNumber(there);
  }

  lemma PickWeekday(base: nat, weekday: nat) returns (n: nat)
    requires weekday <= 6
    ensures base <= n < base + 7 && Weekday(n) == weekday
  {
    n := base + (weekday + 7 - base % 7) % 7;
  }

  function FirstOf(year: nat, month: nat): nat
    requires 1 <= year && 1 <= month <= 12
  {
    DayNumber(Date(year, month, 1))
  }

  /** The day with an offset from the 1st lies in the month as long as every month has such a day. */
  lemma DayInMonth(year: nat, month: nat, offset: nat)
    requires 1 <= year && 1 <= month <= 12 && offset < 28
    ensures DateOf(FirstOf(year, month) + offset).month == month
  {
    var d := Date(year, month, 1 + offset);
    assert ValidDate(d) && DayNumber(d) == FirstOf(year, month) + offset;
    DateOfDayNumber(d);
  }

  /** Any seven days that begin in the first 22 of a month lie in it and hold every weekday. */
  lemma WeekInMonth(year: nat, month: nat, offset: nat, weekday: nat) returns (n: nat)
    requires 1 <= year && 1 <= month <= 12 && offset < 22 && weekday <= 6
    ensures FirstOf(year, month) + offset <= n < FirstOf(year, month) + offset + 7
    ensures DateOf(n).month == month && Weekday(n) == weekday
  {
    n := PickWeekday(FirstOf(year, month) + offset, weekday);
    DayInMonth(year, month, n - FirstOf(year, month));
  }

  /** The 1st of a month is at most 335 days into its year. */
  lemma MonthStart(year: nat, month: nat)
    requires 1 <= year && 1 <= month <= 12
    ensures ValidDate(Date(year, month, 1))
    ensures DaysBeforeYear(year) <= DayNumber(Date(year, month, 1)) <= DaysBeforeYear(year) + 335
  {
    var leap := IsLeap(year);
    MonthsGrow(month, 12, leap);
    MonthStep(12, leap);
    MonthTable(leap);
  }

  /** Where the 1st of a month stands, in the year of a given day and in the next. */
  lemma MonthNear(first: nat, year: nat, month: nat)
    requires 1 <= month <= 12 && year == DateOf(first).year
    ensures FirstOf(year, month) <= first + 335 && first <= FirstOf(year + 1, month) <= FirstOf(year, month) + 366
  {
    DayNumberOfDate(first);
    InsideYear(DateOf(first));
    MonthStart(year, month);
    MonthStart(year + 1, month);
    YearShift(year, month, 1);
  }

  lemma WeekChoice(first: nat, here: nat, next: nat) returns (later: bool, offset: nat)
    requires here <= first + 335 && first <= next <= here + 366
    ensures offset <= 7 && first <= (if later then next else here) + offset
    ensures (if later then next else here) + offset + 6 < first + 366
  {
    later := here < first && next + 6 < first + 366;
    offset := if here < first && !later then 7 else 0;
  }

  /** 366 consecutive days contain the first or the second week of any given month. */
  lemma WeekWithin(first: nat, month: nat) returns (year: nat, offset: nat)
    requires 1 <= month <= 12
    ensures 1 <= year && offset <= 7
    ensures first <= FirstOf(year, month) + offset && FirstOf(year, month) + offset + 6 < first + 366
  {
    var here := DateOf(first).year;
    MonthNear(first, here, month);
    var later, days := WeekChoice(first, FirstOf(here, month), FirstOf(here + 1, month));
    year, offset := if later then here + 1 else here, days;
  }

  /** 366 consecutive days contain every weekday inside any given month. */
  lemma WeekdayInMonthWithin(first: nat, month: nat, weekday: nat) returns (n: nat)
    requires 1 <= month <= 12 && weekday <= 6
    ensures first <= n < first + 366
    ensures DateOf(n).month == month && Weekday(n) == weekday
  {
    var year, offset := WeekWithin(first, month);
    n := WeekInMonth(year, month, offset, weekday);
  }

  // ----- the dichotomy -----

  /** Every match lies on an allowed date that exists in some year. */
  lemma MatchNeedsDate(f: Fields, m: nat)
    requires Matches(f, m)
    ensures SomeDate(f, true)
    ensures !SomeDate(f, false) ==>
        DateOf(m / 1440).month == 2 && DateOf(m / 1440).day == 29 && IsLeap(DateOf(m / 1440).year)
  {
    var d := DateOf(m / 1440);
    assert AllowsDate(f, d.month, d.day);
    assert d.day <= MonthLength(d.month, true);
  }

  /** With any weekday allowed, a date that occurs every year is found from every starting minute. */
  lemma CommonDateRuns(f: Fields, start: nat) returns (m: nat)
    requires WellRanged(f) && AnyWeekday(f) && SomeDate(f, false)
    ensures start <= m < start + WINDOW && Matches(f, m)
  {
    var time := SomeTime(f);
    var month, day :| 1 <= month <= 12 && 1 <= day <= MonthLength(month, false) && AllowsDate(f, month, day);
    var n := CommonDateWithin(FirstDayOfWindow(start, time), month, day);
    WindowDays(start, time, n);
    MatchesParts(f, n, time);
    m := n * 1440 + time;
  }

  /** With any day of the month allowed, every choice of weekdays and months is found from every starting minute. */
  lemma AnyDayRuns(f: Fields, start: nat) returns (m: nat)
    requires WellRanged(f) && AnyDay(f)
    ensures start <= m < start + WINDOW && Matches(f, m)
  {
    var time := SomeTime(f);
    var month :| month in f.months;
    var weekday :| weekday in f.weekdays;
    var n := WeekdayInMonthWithin(FirstDayOfWindow(start, time), month, weekday);
    WindowDays(start, time, n);
    MatchesParts(f, n, time);
    m := n * 1440 + time;
  }

  function LeapMinute(year: nat, time: nat): nat
    requires 1 <= year && IsLeap(year)
  {
    DayNumber(Date(year, 2, 29)) * 1440 + time
  }

  /** An allowed time on 29 February of `year` falls in the window from minute `start`. */
  ghost predicate LeapDayAhead(f: Fields, year: nat, start: nat)
    requires 1 <= year
  {
    IsLeap(year) && exists time :: AllowsTime(f, time) && start <= LeapMinute(year, time) < start + WINDOW
  }

  lemma MatchesOnDay(f: Fields, n: nat, time: nat)
    requires AnyWeekday(f) && AllowsDate(f, DateOf(n).month, DateOf(n).day) && AllowsTime(f, time)
    ensures Matches(f, n * 1440 + time)
  {
    MatchesParts(f, n, time);
    assert 0 <= Weekday(n) <= 6;
  }

  lemma AllowedOnDate(f: Fields, d: Date, n: nat)
    requires ValidDate(d) && AllowsDate(f, d.month, d.day) && n == DayNumber(d)
    ensures AllowsDate(f, DateOf(n).month, DateOf(n).day)
  {
    DateOfDayNumber(d);
  }

  lemma MatchOnDate(f: Fields, d: Date, time: nat)
    requires AnyWeekday(f) && ValidDate(d) && AllowsDate(f, d.month, d.day) && AllowsTime(f, time)
    ensures Matches(f, DayNumber(d) * 1440 + time)
  {
    AllowedOnDate(f, d, DayNumber(d));
    MatchesOnDay(f, DayNumber(d), time);
  }

  lemma LeapMinuteMatches(f: Fields, year: nat, time: nat)
    requires AnyWeekday(f) && AllowsDate(f, 2, 29)
    requires 1 <= year && IsLeap(year) && AllowsTime(f, time)
    ensures Matches(f, LeapMinute(year, time))
  {
    MatchOnDate(f, Date(year, 2, 29), time);
  }

  /** 29 February at most 366 days on from a date is in that date's year or the next. */
  lemma LeapDayNear(first: Date, d: Date)
    requires ValidDate(first) && ValidDate(d) && d.month == 2 && d.day == 29
    requires DayNumber(first) <= DayNumber(d) <= DayNumber(first) + 366
    ensures d.year == first.year || d.year == first.year + 1
  {
    YearsApart(first, d);
    YearsApart(d, first);
    MonthTable(true);
  }

  /** A match whose date can only be 29 February is in the starting year or the next. */
  lemma MatchIsLeapDay(f: Fields, start: nat, m: nat)
    requires !SomeDate(f, false) && Matches(f, m) && start <= m < start + WINDOW
    ensures var year := DateOf(start / 1440).year; LeapDayAhead(f, year, start) || LeapDayAhead(f, year + 1, start)
  {
    MatchNeedsDate(f, m);
    var d, time := DateOf(m / 1440), m % 1440;
    assert m == m / 1440 * 1440 + time;
    assert AllowsTime(f, time) by {
      MatchesParts(f, m / 1440, time);
    }
    DayNumberOfDate(m / 1440);
    assert m == LeapMinute(d.year, time);
    DayNumberOfDate(start / 1440);
    LeapDayNear(DateOf(start / 1440), d);
  }

  lemma OnlyLeapDay(f: Fields)
    requires SomeDate(f, true) && !SomeDate(f, false)
    ensures AllowsDate(f, 2, 29)
  {
    var month, day :| 1 <= month <= 12 && 1 <= day <= MonthLength(month, true) && AllowsDate(f, month, day);
    assert !(1 <= day <= MonthLength(month, false));
  }

  /** When 29 February is the only allowed date, the search succeeds exactly when that day of the
      starting year is still ahead, or that day of the next year is already near enough. */
  lemma LeapDayRunsIff(f: Fields, start: nat)
    requires AnyWeekday(f) && SomeDate(f, true) && !SomeDate(f, false)
    ensures var year := DateOf(start / 1440).year;
            !NoMatchIn(f, start, start + WINDOW) <==> LeapDayAhead(f, year, start) || LeapDayAhead(f, year + 1, start)
  {
    OnlyLeapDay(f);
    forall year, time | 1 <= year && IsLeap(year) && AllowsTime(f, time) ensures Matches(f, LeapMinute(year, time)) {
      LeapMinuteMatches(f, year, time);
    }
    if !NoMatchIn(f, start, start + WINDOW) {
      var m :| start <= m < start + WINDOW && Matches(f, m);
      MatchIsLeapDay(f, start, m);
    }
  }

  /** Does a run exist? For fields that allow every weekday, read off from the dates alone. */
  ghost predicate DatesGiveRun(f: Fields, start: nat) {
    var year := DateOf(start / 1440).year;
    || SomeDate(f, false)
    || (SomeDate(f, true) && (LeapDayAhead(f, year, start) || LeapDayAhead(f, year + 1, start)))
  }

  lemma WindowDichotomy(f: Fields, start: nat)
    requires WellRanged(f) && AnyWeekday(f)
    ensures !NoMatchIn(f, start, start + WINDOW) <==> DatesGiveRun(f, start)
  {
    if SomeDate(f, false) {
      var m := CommonDateRuns(f, start);
    } else if SomeDate(f, true) {
      LeapDayRunsIff(f, start);
    } else {
      forall m | start <= m < start + WINDOW ensures !Matches(f, m) {
        if Matches(f, m) {
          MatchNeedsDate(f, m);
        }
      }
    }
  }

  /** The horizon dichotomy for expressions that allow every weekday: a date that exists in every year is
      always found, a date that exists in no year never is, and only 29 February depends on `after`. */
  lemma HorizonDichotomy(expression: string, after: Time)
    requires Normalised(expression) && AnyWeekday(FieldsOf(expression))
    ensures NextRun(expression, after).Ok? <==> DatesGiveRun(FieldsOf(expression), MinuteAfter(after))
  {
    StoredFieldsWellRanged(expression);
    NextRunRaisesIff(expression, after);
    WindowDichotomy(FieldsOf(expression), MinuteAfter(after));
  }

  /** An expression whose day of the month is `*` always has a run, whatever its weekday. */
  lemma AnyDayAlwaysRuns(expression: string, after: Time)
    requires Normalised(expression) && AnyDay(FieldsOf(expression))
    ensures NextRun(expression, after).Ok?
  {
    StoredFieldsWellRanged(expression);
    NextRunRaisesIff(expression, after);
    var m := AnyDayRuns(FieldsOf(expression), MinuteAfter(after));
  }

  predicate IsMidnightOn28February(m: nat) {
    m % 1440 == 0 && DateOf(m / 1440).month == 2 && DateOf(m / 1440).day == 28
  }

  lemma SameDayOfYear(a: Date, b: Date)
    requires ValidDate(a) && ValidDate(b) && a.month == b.month && a.day == b.day
    ensures DayNumber(a) < DayNumber(b) <==> a.year < b.year
    ensures DayNumber(a) <= DayNumber(b) <==> a.year <= b.year
  {
    YearsApart(a, b);
    YearsApart(b, a);
  }

  lemma NextMidnightOn28February(here: Date, there: Date, m: nat)
    requires ValidDate(here) && ValidDate(there) && there.year == here.year + 1
    requires here.month == there.month == 2 && here.day == there.day == 28
    requires IsMidnightOn28February(m) && DayNumber(here) * 1440 < m
    ensures DayNumber(there) * 1440 <= m
  {
    var n := m / 1440;
    DayNumberOfDate(n);
    SameDayOfYear(here, DateOf(n));
    SameDayOfYear(there, DateOf(n));
  }

  /** Midnight on 28 February and nothing else, on any weekday. */
  ghost predicate OnlyOn28February(f: Fields) {
    f.minutes == {0} && f.hours == {0} && f.days == {28} && f.months == {2} && AnyWeekday(f)
  }

  lemma MatchIsMidnightOn28February(f: Fields, m: nat)
    requires OnlyOn28February(f) && Matches(f, m)
    ensures IsMidnightOn28February(m)
  {
    assert m == m / 1440 * 1440 + m % 1440;
    MatchesParts(f, m / 1440, m % 1440);
    assert m % 1440 / 60 == 0 && m % 1440 % 60 == 0;
  }

  /** A date before 29 February moves by the length of the year it is in. */
  lemma EarlyDateMoves(here: Date, there: Date)
    requires ValidDate(here) && ValidDate(there) && there.year == here.year + 1
    requires here.month == there.month <= 2 && here.day == there.day
    ensures DayNumber(there) == DayNumber(here) + YearDays(here.year)
  {
    MonthLeapShift(here.month, IsLeap(here.year));
    MonthLeapShift(here.month, IsLeap(there.year));
  }

  /** The window is no longer than it has to be: from midnight on 28 February of any leap year, the next such
      midnight is found in the last of the 527,040 minutes and in none before. */
  lemma WindowIsTight(f: Fields, year: nat, start: nat)
    requires OnlyOn28February(f)
    requires 1 <= year && IsLeap(year) && start == DayNumber(Date(year, 2, 28)) * 1440 + 1
    ensures NextMinute(f, start) == Some(start + WINDOW - 1)
  {
    var here, there := Date(year, 2, 28), Date(year + 1, 2, 28);
    EarlyDateMoves(here, there);
    var last := start + WINDOW - 1;
    MatchOnDate(f, there, 0);
    forall m | start <= m < last ensures !Matches(f, m) {
      if Matches(f, m) {
        MatchIsMidnightOn28February(f, m);
        NextMidnightOn28February(here, there, m);
      }
    }
    FirstMatchIsLeast(f, start, start + WINDOW);
  }
}
