// Expressions that restrict day and weekday together: they run again and again, or never.
module CronRecurrence {
  import opened Core
  import opened Calendar
  import opened CronText
  import opened CronSearch
  import opened CronHorizon

  // ----- seven leap years in a row hold every date on every weekday -----

  /** The leap years 4, 8, ..., 28 of each cycle of 400. */
  function LeapYear(cycle: nat, k: nat): nat {
    400 * cycle + 4 * k + 4
  }

  lemma InCycle(cycle: nat, r: nat)
    requires r < 100
    ensures (400 * cycle + r) / 4 == 100 * cycle + r / 4
    ensures (400 * cycle + r) / 100 == 4 * cycle
    ensures (400 * cycle + r) / 400 == cycle
  {
    assert 400 * cycle + r == 4 * (100 * cycle) + r;
    assert 400 * cycle + r == 100 * (4 * cycle) + r;
  }

  lemma InCentury(century: nat, r: nat)
    requires r < 100
    ensures (100 * century + r) % 100 == r
  {
  }

  lemma IsLeapYear(cycle: nat, k: nat)
    requires k <= 6
    ensures IsLeap(LeapYear(cycle, k))
  {
    FourTimes(100 * cycle + k + 1);
    InCentury(4 * cycle, 4 * k + 4);
  }

  lemma LeapYearStart(cycle: nat, k: nat, before: nat)
    requires k <= 6 && before == 400 * cycle + 4 * k + 3
    ensures DaysBeforeYear(before + 1) == 146_097 * cycle + 1_461 * k + 1_095
  {
    DaysBeforeYearClosedForm(before + 1);
    InCycle(cycle, 4 * k + 3);
  }

  /** How many leap years on the weekday is reached; from one leap year to the next a date moves by five weekdays. */
  function LeapYearsTo(weekday: nat, base: nat): (k: nat)
    requires weekday <= 6
    ensures k <= 6
  {
    3 * (weekday + 7 - base % 7) % 7
  }

  lemma FiveWeekdays(b: nat, weekday: nat)
    requires b <= 6 && weekday <= 6
    ensures (b + 5 * (3 * (weekday + 7 - b) % 7)) % 7 == weekday
  {
  }

  lemma Multiple(q: nat, r: nat)
    ensures (7 * q + r) % 7 == r % 7
  {
  }

  lemma WeekdayReached(base: nat, weekday: nat)
    requires weekday <= 6
    ensures Weekday(base + 1_461 * LeapYearsTo(weekday, base)) == weekday
  {
    var b, k := base % 7, LeapYearsTo(weekday, base);
    FiveWeekdays(b, weekday);
    assert base + 1_461 * k == 7 * (base / 7 + 208 * k) + (b + 5 * k);
    Multiple(base / 7 + 208 * k, b + 5 * k);
  }

  lemma DayNumberIn(d: Date, leap: bool, before: nat)
    requires ValidDate(d) && leap == IsLeap(d.year) && before == DaysBeforeYear(d.year)
    ensures DayNumber(d) == before + DaysBeforeMonth(d.month, leap) + d.day - 1
  {
  }

  /** Where a date stands in the k-th of these years. */
  lemma LeapDateNumber(d: Date, cycle: nat, k: nat, before: nat)
    requires k <= 6 && ValidDate(d) && IsLeap(d.year)
    requires before == 400 * cycle + 4 * k + 3 && d.year == before + 1
    ensures DayNumber(d) == 146_097 * cycle + 1_461 * k + 1_095 + DaysBeforeMonth(d.month, true) + d.day - 1
  {
    LeapYearStart(cycle, k, before);
    DayNumberIn(d, true, 146_097 * cycle + 1_461 * k + 1_095);
  }

  /** Every date of a leap year falls on every weekday, in every cycle of 400 years. */
  lemma DateOnWeekday(cycle: nat, month: nat, day: nat, weekday: nat) returns (d: Date)
    requires 1 <= month <= 12 && 1 <= day <= MonthLength(month, true) && weekday <= 6
    ensures ValidDate(d) && d.month == month && d.day == day
    ensures DayNumber(d) >= 146_097 * cycle && Weekday(DayNumber(d)) == weekday
  {
    var base := 146_097 * cycle + 1_095 + DaysBeforeMonth(month, true) + day - 1;
    WeekdayReached(base, weekday);
    var k := LeapYearsTo(weekday, base);
    IsLeapYear(cycle, k);
    d := Date(LeapYear(cycle, k), month, day);
    LeapDateNumber(d, cycle, k, 400 * cycle + 4 * k + 3);
  }

  // ----- again and again, or never -----

  lemma MatchIsFound(expression: string, m: nat)
    requires Normalised(expression) && 1 <= m && Matches(FieldsOf(expression), m)
    ensures NextRun(expression, InstantOf(m - 1)).Ok?
  {
    assert MinuteAfter(InstantOf(m - 1)) == m;
    NextRunRaisesIff(expression, InstantOf(m - 1));
  }

  lemma MatchAfter(f: Fields, start: nat) returns (m: nat)
    requires WellRanged(f) && SomeDate(f, true)
    ensures start < m && Matches(f, m)
  {
    var time := SomeTime(f);
    var month, day :| 1 <= month <= 12 && 1 <= day <= MonthLength(month, true) && AllowsDate(f, month, day);
    var weekday :| weekday in f.weekdays;
    var d := DateOnWeekday(start + 1, month, day, weekday);
    DateOfDayNumber(d);
    MatchesParts(f, DayNumber(d), time);
    m := DayNumber(d) * 1440 + time;
  }

  /** An expression that allows some date of a leap year has runs after every instant, however far. */
  lemma RunsAgain(expression: string, t: Time) returns (after: Time)
    requires Normalised(expression) && SomeDate(FieldsOf(expression), true)
    ensures t <= after && NextRun(expression, after).Ok?
  {
    StoredFieldsWellRanged(expression);
    var m := MatchAfter(FieldsOf(expression), MinuteOf(t) + 1);
    MatchIsFound(expression, m);
    after := InstantOf(m - 1);
  }

  /** An expression whose dates exist in no year raises after every instant. */
  lemma NeverRuns(expression: string, after: Time)
    requires Normalised(expression) && !SomeDate(FieldsOf(expression), true)
    ensures NextRun(expression, after) == Err(BadRequest(CronNoRun))
  {
    var f := FieldsOf(expression);
    NextRunRaisesIff(expression, after);
    forall m | MinuteAfter(after) <= m < MinuteAfter(after) + WINDOW ensures !Matches(f, m) {
      if Matches(f, m) {
        MatchNeedsDate(f, m);
      }
    }
  }

  /** Whatever days and weekdays it restricts together, a stored expression has a run at all if and only if some
      allowed (month, day) exists in a leap year; and then it has runs after every instant. */
  lemma HasRunIff(expression: string)
    requires Normalised(expression)
    ensures (exists after: Time :: NextRun(expression, after).Ok?) <==> SomeDate(FieldsOf(expression), true)
  {
    if SomeDate(FieldsOf(expression), true) {
      var after := RunsAgain(expression, 0);
    } else {
      forall after: Time ensures !NextRun(expression, after).Ok? {
        NeverRuns(expression, after);
      }
    }
  }
}
