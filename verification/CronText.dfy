// The text of a cron expression: splitting, field parsing and normalisation
// (app/jobs/scheduling.py).
module CronText {
  import opened Core

  // ----- str.strip, str.split and " ".join -----

  /** The characters Python's `str.isspace` accepts. */
  predicate IsSpace(c: char) {
    || '\t' <= c <= '\r' || '\U{1C}' <= c <= ' '
    || c == '\U{85}' || c == '\U{A0}' || c == '\U{1680}'
    || '\U{2000}' <= c <= '\U{200A}'
    || c == '\U{2028}' || c == '\U{2029}' || c == '\U{202F}' || c == '\U{205F}' || c == '\U{3000}'
  }

  predicate IsWord(w: string) {
    w != [] && forall i :: 0 <= i < |w| ==> !IsSpace(w[i])
  }

  predicate AllWords(words: seq<string>) {
    forall i :: 0 <= i < |words| ==> IsWord(words[i])
  }

  function Strip(s: string): string {
    if s == [] then s
    else if IsSpace(s[0]) then Strip(s[1..])
    else if IsSpace(s[|s| - 1]) then Strip(s[..|s| - 1])
    else s
  }

  /** Length of the run of non-space characters that `s` starts with. */
  function WordLength(s: string): (n: nat)
    ensures n <= |s|
    ensures forall i :: 0 <= i < n ==> !IsSpace(s[i])
    ensures n < |s| ==> IsSpace(s[n])
  {
    if s == [] || IsSpace(s[0]) then 0 else 1 + WordLength(s[1..])
  }

  function Split(s: string): (words: seq<string>)
    ensures AllWords(words)
    decreases |s|
  {
    if s == [] then []
    else if IsSpace(s[0]) then Split(s[1..])
    else
      var n := WordLength(s);
      assert n > 0;
      [s[..n]] + Split(s[n..])
  }

  function Join(words: seq<string>): string {
    if words == [] then []
    else if |words| == 1 then words[0]
    else words[0] + [' '] + Join(words[1..])
  }

  lemma {:induction false} WordLengthPrefix(s: string, t: string)
    requires t == [] || IsSpace(t[0])
    ensures WordLength(s + t) == WordLength(s)
  {
    if s == [] {
      assert s + t == t;
    } else if !IsSpace(s[0]) {
      assert (s + t)[1..] == s[1..] + t;
      WordLengthPrefix(s[1..], t);
    }
  }

  /** A trailing space never changes how a text splits. */
  lemma {:induction false} SplitTrailingSpace(s: string, c: char)
    requires IsSpace(c)
    ensures Split(s + [c]) == Split(s)
    decreases |s|
  {
    if s == [] {
      assert [c][1..] == [];
    } else if IsSpace(s[0]) {
      assert (s + [c])[1..] == s[1..] + [c];
      SplitTrailingSpace(s[1..], c);
    } else {
      var n := WordLength(s);
      WordLengthPrefix(s, [c]);
      assert (s + [c])[..n] == s[..n];
      assert (s + [c])[n..] == s[n..] + [c];
      SplitTrailingSpace(s[n..], c);
    }
  }

  /** Stripping first, as the validator does, never changes how a text splits. */
  lemma {:induction false} SplitOfStrip(s: string)
    ensures Split(Strip(s)) == Split(s)
    decreases |s|
  {
    if s == [] {
    } else if IsSpace(s[0]) {
      SplitOfStrip(s[1..]);
    } else if IsSpace(s[|s| - 1]) {
      SplitOfStrip(s[..|s| - 1]);
      SplitTrailingSpace(s[..|s| - 1], s[|s| - 1]);
      assert s == s[..|s| - 1] + [s[|s| - 1]];
    }
  }

  lemma {:induction false} WholeWord(w: string)
    requires forall i :: 0 <= i < |w| ==> !IsSpace(w[i])
    ensures WordLength(w) == |w|
  {
    if w == [] {
    } else {
      WholeWord(w[1..]);
    }
  }

  lemma {:induction false} WordThenRest(w: string, rest: string)
    requires IsWord(w)
    requires rest == [] || IsSpace(rest[0])
    ensures Split(w + rest) == [w] + Split(rest)
  {
    WholeWord(w);
    WordLengthPrefix(w, rest);
    assert (w + rest)[..|w|] == w && (w + rest)[|w|..] == rest;
  }

  /** Joining words with single spaces and splitting again gives the same words. */
  lemma {:induction false} SplitOfJoin(words: seq<string>)
    requires AllWords(words)
    ensures Split(Join(words)) == words
  {
    if words == [] {
    } else if |words| == 1 {
      WordThenRest(words[0], []);
      assert words[0] + [] == words[0];
    } else {
      var tail := Join(words[1..]);
      assert Join(words) == words[0] + ([' '] + tail);
      WordThenRest(words[0], [' '] + tail);
      assert ([' '] + tail)[1..] == tail;
      SplitOfJoin(words[1..]);
    }
  }

  // ----- one field -----

  predicate IsDigit(c: char) {
    '0' <= c <= '9'
  }

  predicate AllDigits(s: string) {
    forall i :: 0 <= i < |s| ==> IsDigit(s[i])
  }

  function Digit(c: char): (n: nat)
    requires IsDigit(c)
    ensures n <= 9
  {
    c as int - '0' as int
  }

  function DigitsValue(s: string): nat
    requires AllDigits(s)
  {
    if s == [] then 0 else DigitsValue(s[..|s| - 1]) * 10 + Digit(s[|s| - 1])
  }

  /** `int(text)` for decimal digits with an optional sign. */
  function ParseInt(s: string): Option<int> {
    var signed := s != [] && (s[0] == '+' || s[0] == '-');
    var digits := if signed then s[1..] else s;
    if digits == [] || !AllDigits(digits) then None
    else if signed && s[0] == '-' then Some(-(DigitsValue(digits) as int))
    else Some(DigitsValue(digits))
  }

  lemma NotAnInteger(s: string)
    requires s != [] && s[0] != '+' && s[0] != '-' && !IsDigit(s[0])
    ensures ParseInt(s) == None
  {
    assert !AllDigits(s) by {
      assert !IsDigit(s[0]);
    }
  }

  predicate OnStep(v: nat, start: nat, step: nat)
    requires step > 0
  {
    start <= v && (v - start) % step == 0
  }

  /** `set(range(start, stop, step))`. */
  function Range(start: nat, stop: nat, step: nat): set<nat>
    requires step > 0
  {
    set v: nat | v < stop && OnStep(v, start, step)
  }

  function ParsePart(part: string, minimum: nat, maximum: nat): Result<set<nat>> {
    if part == "*" then
      Ok(Range(minimum, maximum + 1, 1))
    else if "*/" <= part then
      match ParseInt(part[2..])
      case None => Err(BadRequest(CronStepNotInteger))
      case Some(step) =>
        if step <= 0 then Err(BadRequest(CronStepNotPositive))
        else Ok(Range(minimum, maximum + 1, step))
    else
      match ParseInt(part)
      case None => Err(BadRequest(CronFieldNotRecognised))
      case Some(value) =>
        if value < minimum || value > maximum then Err(BadRequest(CronValueOutOfRange))
        else Ok({value})
  }

  /** An accepted field allows at least one value, never one out of range, and a star form allows the minimum. */
  lemma AcceptedPart(part: string, minimum: nat, maximum: nat)
    requires minimum <= maximum
    requires ParsePart(part, minimum, maximum).Ok?
    ensures var values := ParsePart(part, minimum, maximum).value;
            && values != {}
            && (forall v :: v in values ==> minimum <= v <= maximum)
            && ("*" <= part ==> minimum in values)
  {
    var values := ParsePart(part, minimum, maximum).value;
    if "*" <= part {
      if part != "*" && !("*/" <= part) {
        NotAnInteger(part);
      }
      assert minimum in values;
    } else {
      assert ParseInt(part).value in values;
    }
  }

  // ----- the whole expression -----

  /** The values allowed for minute, hour, day of month, month and weekday (Monday is 0). */
  datatype Fields = Fields(minutes: set<nat>, hours: set<nat>, days: set<nat>, months: set<nat>, weekdays: set<nat>)

  /** Every field allows some value, and only values in its range. */
  ghost predicate WellRanged(f: Fields) {
    && f.minutes != {} && (forall v :: v in f.minutes ==> v <= 59)
    && f.hours != {} && (forall v :: v in f.hours ==> v <= 23)
    && f.days != {} && (forall v :: v in f.days ==> 1 <= v <= 31)
    && f.months != {} && (forall v :: v in f.months ==> 1 <= v <= 12)
    && f.weekdays != {} && (forall v :: v in f.weekdays ==> v <= 6)
  }

  function ParseParts(parts: seq<string>): Result<Fields>
    requires |parts| == 5
  {
    var minutes :- ParsePart(parts[0], 0, 59);
    var hours :- ParsePart(parts[1], 0, 23);
    var days :- ParsePart(parts[2], 1, 31);
    var months :- ParsePart(parts[3], 1, 12);
    var weekdays :- ParsePart(parts[4], 0, 6);
    Ok(Fields(minutes, hours, days, months, weekdays))
  }

  function Validate(expression: string): Result<string> {
    var parts := Split(Strip(expression));
    if |parts| != 5 then Err(BadRequest(CronFieldCount))
    else
      var _ :- ParseParts(parts);
      Ok(Join(parts))
  }

  /** An expression as the database stores it: the output of the validator. */
  predicate Normalised(expression: string) {
    Validate(expression) == Ok(expression)
  }

  lemma NormalisedSplits(expression: string)
    requires Normalised(expression)
    ensures |Split(expression)| == 5 && ParseParts(Split(expression)).Ok?
  {
    SplitOfStrip(expression);
  }

  function FieldsOf(expression: string): Fields
    requires Normalised(expression)
  {
    NormalisedSplits(expression);
    ParseParts(Split(expression)).value
  }

  /** What the validator returns is a fixed point of it, with the same five fields, parsed alike. */
  lemma ValidateNormalises(expression: string)
    requires Validate(expression).Ok?
    ensures Normalised(Validate(expression).value)
    ensures Split(Validate(expression).value) == Split(expression)
    ensures |Split(expression)| == 5 && ParseParts(Split(expression)) == Ok(FieldsOf(Validate(expression).value))
  {
    SplitOfStrip(expression);
    SplitOfJoin(Split(Strip(expression)));
    SplitOfStrip(Join(Split(Strip(expression))));
  }

  /** A stored expression names a non-empty, in-range choice for each of the five fields. */
  lemma StoredFieldsWellRanged(expression: string)
    requires Normalised(expression)
    ensures WellRanged(FieldsOf(expression))
  {
    NormalisedSplits(expression);
    var parts := Split(expression);
    AcceptedPart(parts[0], 0, 59);
    AcceptedPart(parts[1], 0, 23);
    AcceptedPart(parts[2], 1, 31);
    AcceptedPart(parts[3], 1, 12);
    AcceptedPart(parts[4], 0, 6);
  }
}
