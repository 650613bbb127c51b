// Two expressions as they are stored: one that never runs, and one that needs the last minute of the window.
module CronExamples {
  import opened Core
  import opened Calendar
  import opened CronText
  import opened CronSearch
  import opened CronHorizon
  import opened CronRecurrence

  const FEBRUARY_30: string := "0 0 30 2 *"

  const FEBRUARY_28: string := "0 0 28 2 *"

  /** The parts of "midnight on this day of February". */
  function Parts(day: string): seq<string> {
    ["0", "0", day, "2", "*"]
  }

  function FebruaryFields(day: nat): Fields {
    Fields({0}, {0}, {day}, {2}, Range(0, 7, 1))
  }

  lemma PartsParse(day: string, value: nat)
    requires ParsePart(day, 1, 31) == Ok({value})
    ensures ParseParts(Parts(day)) == Ok(FebruaryFields(value))
  {
    assert DigitsValue("0") == 0 && DigitsValue("2") == 2;
    assert ParsePart("0", 0, 59) == Ok({0}) && ParsePart("0", 0, 23) == Ok({0});
    assert ParsePart("2", 1, 12) == Ok({2});
  }

  lemma ThirtyParses()
    ensures ParsePart("30", 1, 31) == Ok({30})
  {
    assert "30"[..1] == "3" && DigitsValue("3") == 3 && DigitsValue("30") == 30;
  }

  lemma TwentyEightParses()
    ensures ParsePart("28", 1, 31) == Ok({28})
  {
    assert "28"[..1] == "2" && DigitsValue("2") == 2 && DigitsValue("28") == 28;
  }

  lemma PartsJoin(day: string)
    ensures Join(Parts(day)) == "0 0 " + day + " 2 *"
  {
    assert Join(["*"]) == "*" && Join(["2", "*"]) == "2 *";
    assert Parts(day)[2..] == [day, "2", "*"] && [day, "2", "*"][1..] == ["2", "*"];
    assert Join([day, "2", "*"]) == day + " 2 *";
    assert Parts(day)[1..][1..] == Parts(day)[2..];
    assert Join(Parts(day)[1..]) == "0 " + day + " 2 *";
  }

  lemma JoinIsAccepted(words: seq<string>)
    requires AllWords(words) && |words| == 5 && ParseParts(words).Ok?
    ensures Normalised(Join(words)) && FieldsOf(Join(words)) == ParseParts(words).value
  {
    SplitOfJoin(words);
    SplitOfStrip(Join(words));
  }

  lemma February(expression: string, day: string, value: nat)
    requires ParsePart(day, 1, 31) == Ok({value}) && IsWord(day) && expression == "0 0 " + day + " 2 *"
    ensures Normalised(expression) && FieldsOf(expression) == FebruaryFields(value)
  {
    PartsJoin(day);
    PartsParse(day, value);
    assert AllWords(Parts(day));
    JoinIsAccepted(Parts(day));
  }

  /** The validator accepts both expressions as they stand. */
  lemma FebruaryThirtyIsAccepted()
    ensures Normalised(FEBRUARY_30) && FieldsOf(FEBRUARY_30) == FebruaryFields(30)
  {
    ThirtyParses();
    February(FEBRUARY_30, "30", 30);
  }

  lemma FebruaryTwentyEightIsAccepted()
    ensures Normalised(FEBRUARY_28) && FieldsOf(FEBRUARY_28) == FebruaryFields(28)
  {
    TwentyEightParses();
    February(FEBRUARY_28, "28", 28);
  }

  lemma NoThirtiethOfFebruary(f: Fields)
    requires f.days == {30} && f.months == {2}
    ensures !SomeDate(f, true)
  {
    forall month, leap | month == 2 ensures MonthLength(month, leap) < 30 {}
  }

  /** 30 February has no run after any instant. */
  lemma FebruaryThirtyNeverRuns(after: Time)
    ensures NextRun(FEBRUARY_30, after) == Err(BadRequest(CronNoRun))
  {
    FebruaryThirtyIsAccepted();
    NoThirtiethOfFebruary(FieldsOf(FEBRUARY_30));
    NeverRuns(FEBRUARY_30, after);
  }

  lemma AllWeekdays(f: Fields)
    requires f.weekdays == Range(0, 7, 1)
    ensures AnyWeekday(f)
  {
    forall w | 0 <= w <= 6 ensures w in f.weekdays {
      assert OnStep(w, 0, 1);
    }
  }

  lemma MinuteAfterMinute(m: nat)
    ensures MinuteAfter(InstantOf(m)) == m + 1
  {
  }

  lemma FoundAt(expression: string, after: Time, k: nat)
    requires Normalised(expression) && NextMinute(FieldsOf(expression), MinuteAfter(after)) == Some(k)
    ensures NextRun(expression, after) == Ok(InstantOf(k))
  {
    ValidateNormalises(expression);
  }

  lemma SearchedFrom(expression: string, f: Fields, m: nat, k: nat)
    requires Normalised(expression) && FieldsOf(expression) == f && NextMinute(f, m + 1) == Some(k)
    ensures NextRun(expression, InstantOf(m)) == Ok(InstantOf(k))
  {
    MinuteAfterMinute(m);
    FoundAt(expression, InstantOf(m), k);
  }

  lemma TightFrom(f: Fields, d: Date, m: nat)
    requires ValidDate(d) && d.month == 2 && d.day == 28 && IsLeap(d.year) && OnlyOn28February(f)
    requires m == DayNumber(d) * 1440
    ensures NextMinute(f, m + 1) == Some(m + WINDOW)
  {
    assert d == Date(d.year, 2, 28);
    WindowIsTight(f, d.year, m + 1);
  }

  predicate IsMidnightOnLeap28February(m: nat) {
    IsMidnightOn28February(m) && IsLeap(DateOf(m / 1440).year)
  }

  lemma TightMinute(f: Fields, m: nat)
    requires OnlyOn28February(f) && IsMidnightOnLeap28February(m)
    ensures NextMinute(f, m + 1) == Some(m + WINDOW)
  {
    DayNumberOfDate(m / 1440);
    TightFrom(f, DateOf(m / 1440), m);
  }

  /** Searched from midnight on 28 February of a leap year, the next such midnight is in the last minute of the
      window. */
  lemma FebruaryTwentyEightNeedsTheWindow(m: nat)
    requires IsMidnightOnLeap28February(m)
    ensures NextRun(FEBRUARY_28, InstantOf(m)) == Ok(InstantOf(m + WINDOW))
  {
    FebruaryTwentyEightIsAccepted();
    AllWeekdays(FebruaryFields(28));
    TightMinute(FebruaryFields(28), m);
    SearchedFrom(FEBRUARY_28, FebruaryFields(28), m, m + WINDOW);
  }
}
