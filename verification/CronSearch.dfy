// The bounded minute-by-minute search for the next run (app/jobs/scheduling.py:16-36).
module CronSearch {
  import opened Core
  import opened Calendar
  import opened CronText

  /** Number of minutes the search looks at: 366 days. */
  const WINDOW: nat := 527_040

  /** Do all five fields allow minute number `m`, counted from 0001-01-01T00:00? */
  predicate Matches(f: Fields, m: nat) {
    var date := DateOf(m / 1440);
    && m % 60 in f.minutes
    && m / 60 % 24 in f.hours
    && date.day in f.days
    && date.month in f.months
    && Weekday(m / 1440) in f.weekdays
  }

  ghost predicate NoMatchIn(f: Fields, lo: nat, hi: nat) {
    forall m :: lo <= m < hi ==> !Matches(f, m)
  }

  /** The first match among the minutes from `start` up to but not including `end`. */
  function FirstMatch(f: Fields, start: nat, end: nat): Option<nat>
    decreases end - start
  {
    if start >= end then None
    else if Matches(f, start) then Some(start)
    else FirstMatch(f, start + 1, end)
  }

  lemma {:induction false} FirstMatchIsLeast(f: Fields, start: nat, end: nat)
    ensures var r := FirstMatch(f, start, end);
            if r.Some? then start <= r.value < end && Matches(f, r.value) && NoMatchIn(f, start, r.value)
            else NoMatchIn(f, start, end)
    decreases end - start
  {
    if start >= end || Matches(f, start) {
    } else {
      FirstMatchIsLeast(f, start + 1, end);
    }
  }

  /** The first whole minute strictly after `t`. */
  function MinuteAfter(t: Time): (m: nat)
    ensures t < InstantOf(m)
    ensures m > 0 && InstantOf(m - 1) <= t
  {
    MinuteOf(t) + 1
  }

  function NextMinute(f: Fields, start: nat): Option<nat> {
    FirstMatch(f, start, start + WINDOW)
  }

  function NextRun(expression: string, after: Time): Result<Time> {
    var valid :- Validate(expression);
    ValidateNormalises(expression);
    match NextMinute(FieldsOf(valid), MinuteAfter(after))
    case Some(m) => Ok(InstantOf(m))
    case None => Err(BadRequest(CronNoRun))
  }

  /** The test of one candidate, parsing every field again as the loop does. */
  predicate PartsAllow(parts: seq<string>, m: nat)
    requires |parts| == 5 && ParseParts(parts).Ok?
  {
    var date := DateOf(m / 1440);
    && m % 60 in ParsePart(parts[0], 0, 59).value
    && m / 60 % 24 in ParsePart(parts[1], 0, 23).value
    && date.day in ParsePart(parts[2], 1, 31).value
    && date.month in ParsePart(parts[3], 1, 12).value
    && Weekday(m / 1440) in ParsePart(parts[4], 0, 6).value
  }

  lemma PartsAllowMatches(parts: seq<string>, m: nat)
    requires |parts| == 5 && ParseParts(parts).Ok?
    ensures PartsAllow(parts, m) == Matches(ParseParts(parts).value, m)
  {
  }

  /** A match with none before it is the first one. */
  lemma FirstMatchIs(f: Fields, start: nat, end: nat, m: nat)
    requires start <= m < end && Matches(f, m) && NoMatchIn(f, start, m)
    ensures FirstMatch(f, start, end) == Some(m)
  {
    FirstMatchIsLeast(f, start, end);
  }

  lemma NoFirstMatch(f: Fields, start: nat, end: nat)
    requires NoMatchIn(f, start, end)
    ensures FirstMatch(f, start, end) == None
  {
    FirstMatchIsLeast(f, start, end);
  }

  /** The loop of `next_cron_run`, on the five split fields. */
  method Search(parts: seq<string>, after: Time) returns (r: Result<Time>)
    requires |parts| == 5 && ParseParts(parts).Ok?
    ensures var f, start := ParseParts(parts).value, MinuteAfter(after);
            if r.Ok? then NextMinute(f, start).Some? && r.value == InstantOf(NextMinute(f, start).value)
            else r.error == BadRequest(CronNoRun) && NextMinute(f, start).None?
  {
    ghost var f, start := ParseParts(parts).value, MinuteAfter(after);
    var candidate := MinuteOf(after) + 1;
    for checked := 0 to WINDOW
      invariant candidate == start + checked
      invariant NoMatchIn(f, start, candidate)
    {
      PartsAllowMatches(parts, candidate);
      if PartsAllow(parts, candidate) {
        FirstMatchIs(f, start, start + WINDOW, candidate);
        return Ok(InstantOf(candidate));
      }
      candidate := candidate + 1;
    }
    NoFirstMatch(f, start, start + WINDOW);
    return Err(BadRequest(CronNoRun));
  }

  /** `next_cron_run`: the loop finds the least matching minute of the window, or raises. */
  method NextCronRun(expression: string, after: Time) returns (r: Result<Time>)
    ensures r == NextRun(expression, after)
  {
    var validated := Validate(expression);
    if validated.Err? {
      return Err(validated.error);
    }
    ValidateNormalises(expression);
    NormalisedSplits(validated.value);
    r := Search(Split(validated.value), after);
  }

  /** The instant `t` is a whole minute, at or after minute `start`, that matches, and no earlier one does. */
  ghost predicate IsFirstMatch(f: Fields, start: nat, t: Time) {
    var m := MinuteOf(t);
    t == InstantOf(m) && start <= m < start + WINDOW && Matches(f, m) && NoMatchIn(f, start, m)
  }

  /** A run that is found is later than `after` and is the least matching minute of the window. */
  lemma NextRunIsLeast(expression: string, after: Time)
    requires Normalised(expression)
    requires NextRun(expression, after).Ok?
    ensures NextRun(expression, after).value > after
    ensures IsFirstMatch(FieldsOf(expression), MinuteAfter(after), NextRun(expression, after).value)
  {
    ValidateNormalises(expression);
    FirstMatchIsLeast(FieldsOf(expression), MinuteAfter(after), MinuteAfter(after) + WINDOW);
  }

  /** Any run that is found, stored expression or not, is later than `after`. */
  lemma NextRunIsLater(expression: string, after: Time)
    requires NextRun(expression, after).Ok?
    ensures NextRun(expression, after).value > after
  {
    var valid := Validate(expression).value;
    ValidateNormalises(expression);
    FirstMatchIsLeast(FieldsOf(valid), MinuteAfter(after), MinuteAfter(after) + WINDOW);
  }

  /** The search raises exactly when none of the 527,040 following minutes matches, and then for that reason:
      a stored expression never raises a format error. */
  lemma NextRunRaisesIff(expression: string, after: Time)
    requires Normalised(expression)
    ensures NextRun(expression, after).Err? <==>
              NoMatchIn(FieldsOf(expression), MinuteAfter(after), MinuteAfter(after) + WINDOW)
    ensures NextRun(expression, after).Err? ==> NextRun(expression, after).error == BadRequest(CronNoRun)
  {
    ValidateNormalises(expression);
    FirstMatchIsLeast(FieldsOf(expression), MinuteAfter(after), MinuteAfter(after) + WINDOW);
    var found := NextMinute(FieldsOf(expression), MinuteAfter(after));
    if found.Some? {
      assert Matches(FieldsOf(expression), found.value);
    }
  }

  // ----- iterating -----

  /** The `k`-th run after `after`, each search starting from the run found before. */
  function RunAfter(expression: string, after: Time, k: nat): Result<Time>
    decreases k
  {
    if k == 0 then Ok(after)
    else
      var next :- NextRun(expression, after);
      RunAfter(expression, next, k - 1)
  }

  ghost predicate MatchWithin(f: Fields, x: nat) {
    exists m :: x < m <= x + WINDOW && Matches(f, m)
  }

  /** From every minute of [lo, hi) some match lies within the window. */
  ghost predicate GapsFit(f: Fields, lo: nat, hi: nat) {
    forall x :: lo <= x < hi ==> MatchWithin(f, x)
  }

  /** Iterating skips nothing: while every gap fits the window, each later matching instant is some iterate. */
  lemma {:induction false} EveryMatchIsServed(expression: string, after: Time, m: nat) returns (k: nat)
    requires Normalised(expression)
    requires MinuteAfter(after) <= m && Matches(FieldsOf(expression), m)
    requires GapsFit(FieldsOf(expression), MinuteOf(after), m)
    ensures k > 0 && RunAfter(expression, after, k) == Ok(InstantOf(m))
    decreases m - MinuteOf(after)
  {
    var f := FieldsOf(expression);
    assert MatchWithin(f, MinuteOf(after));
    NextRunRaisesIff(expression, after);
    NextRunIsLeast(expression, after);
    var next := NextRun(expression, after);
    var found := MinuteOf(next.value);
    if found == m {
      assert RunAfter(expression, next.value, 0) == Ok(InstantOf(m));
      k := 1;
    } else {
      assert found < m;
      var rest := EveryMatchIsServed(expression, next.value, m);
      k := rest + 1;
    }
  }

  lemma FirstStep(expression: string, after: Time, k: nat)
    requires RunAfter(expression, after, k + 1).Ok?
    ensures NextRun(expression, after).Ok?
    ensures RunAfter(expression, after, k + 1) == RunAfter(expression, NextRun(expression, after).value, k)
  {
  }

  /** `b` is the run right after `a`: it matches, and nothing between the two does. */
  ghost predicate Consecutive(expression: string, a: Result<Time>, b: Result<Time>)
    requires Normalised(expression)
  {
    a.Ok? && b.Ok? && a.value < b.value && IsFirstMatch(FieldsOf(expression), MinuteAfter(a.value), b.value)
  }

  lemma ZeroRuns(expression: string, after: Time)
    ensures RunAfter(expression, after, 0) == Ok(after)
  {
  }

  /** Iterates are served in order, each the least match after the one before. */
  lemma {:induction false} RunsAreConsecutive(expression: string, after: Time, k: nat)
    requires Normalised(expression)
    requires RunAfter(expression, after, k + 1).Ok?
    ensures Consecutive(expression, RunAfter(expression, after, k), RunAfter(expression, after, k + 1))
    decreases k
  {
    FirstStep(expression, after, k);
    var next := NextRun(expression, after).value;
    if k == 0 {
      NextRunIsLeast(expression, after);
      ZeroRuns(expression, after);
      ZeroRuns(expression, next);
    } else {
      RunsAreConsecutive(expression, next, k - 1);
      FirstStep(expression, after, k - 1);
    }
  }
}
