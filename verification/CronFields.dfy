// What the text of a cron expression means, read off its characters: the values a field allows and the minutes at
// which the expression runs.
module CronFields {
  import opened Core
  import opened Calendar
  import opened CronText
  import opened CronSearch

  // ----- spacing -----

  /** The code points `str.isspace` accepts. */
  const SPACES: set<int> := {
    0x9, 0xA, 0xB, 0xC, 0xD, 0x1C, 0x1D, 0x1E, 0x1F, 0x20, 0x85, 0xA0, 0x1680, 0x2000, 0x2001, 0x2002, 0x2003, 0x2004,
    0x2005, 0x2006, 0x2007, 0x2008, 0x2009, 0x200A, 0x2028, 0x2029, 0x202F, 0x205F, 0x3000}

  lemma SpacesOfPython(c: char)
    ensures IsSpace(c) <==> c as int in SPACES
  {
  }

  predicate AllSpaces(gap: string) {
    forall i :: 0 <= i < |gap| ==> IsSpace(gap[i])
  }

  /** The words with gaps before, between and after them. */
  function Spread(words: seq<string>, gaps: seq<string>): string
    requires |gaps| == |words| + 1
  {
    if words == [] then gaps[0] else gaps[0] + (words[0] + Spread(words[1..], gaps[1..]))
  }

  lemma {:induction false} SplitSkips(gap: string, text: string)
    requires AllSpaces(gap)
    ensures Split(gap + text) == Split(text)
  {
    if gap == [] {
      assert gap + text == text;
    } else {
      assert (gap + text)[1..] == gap[1..] + text;
      SplitSkips(gap[1..], text);
    }
  }

  lemma RestBeginsWithSpace(words: seq<string>, gaps: seq<string>)
    requires |gaps| == |words| + 1 && words != [] && forall i :: 0 <= i < |gaps| ==> AllSpaces(gaps[i])
    requires forall i :: 0 < i < |words| ==> gaps[i] != []
    requires Spread(words[1..], gaps[1..]) != []
    ensures IsSpace(Spread(words[1..], gaps[1..])[0])
  {
    assert AllSpaces(gaps[1]) && gaps[1..][0] == gaps[1];
    if |words| == 1 {
      assert Spread(words[1..], gaps[1..]) == gaps[1];
    } else {
      assert gaps[1] != [];
    }
  }

  /** Words spread out by any white space split into just these words. */
  lemma {:induction false} SplitOfSpread(words: seq<string>, gaps: seq<string>)
    requires |gaps| == |words| + 1 && AllWords(words) && forall i :: 0 <= i < |gaps| ==> AllSpaces(gaps[i])
    requires forall i :: 0 < i < |words| ==> gaps[i] != []
    ensures Split(Spread(words, gaps)) == words
  {
    if words == [] {
      SplitSkips(gaps[0], []);
      assert gaps[0] + [] == gaps[0];
    } else {
      var rest := Spread(words[1..], gaps[1..]);
      SplitOfSpread(words[1..], gaps[1..]);
      SplitSkips(gaps[0], words[0] + rest);
      if rest != [] {
        RestBeginsWithSpace(words, gaps);
      }
      WordThenRest(words[0], rest);
    }
  }

  // ----- numerals -----

  const DIGITS: string := "0123456789"

  /** The decimal text of a number, without leading zeros. */
  function Decimal(n: nat): string {
    if n < 10 then [DIGITS[n]] else Decimal(n / 10) + [DIGITS[n % 10]]
  }

  function Zeros(k: nat): string {
    seq(k, _ => '0')
  }

  function Written(sign: string, k: nat, v: int): string {
    sign + (Zeros(k) + Decimal(if v < 0 then -v else v))
  }

  /** The text is the integer in decimal, with leading zeros and a sign if one likes. */
  ghost predicate IsNumeral(text: string, v: int) {
    exists sign: string, k: nat ::
      && text == Written(sign, k, v)
      && (sign == "-" || sign == "+" || sign == "") && (v < 0 ==> sign == "-") && (v > 0 ==> sign != "-")
  }

  lemma DigitOf(d: nat)
    requires d < 10
    ensures IsDigit(DIGITS[d]) && Digit(DIGITS[d]) == d
  {
  }

  lemma DigitAt(c: char)
    requires IsDigit(c)
    ensures DIGITS[Digit(c)] == c
  {
  }

  lemma DigitAppended(digits: string, d: nat)
    requires AllDigits(digits) && d < 10
    ensures AllDigits(digits + [DIGITS[d]]) && DigitsValue(digits + [DIGITS[d]]) == 10 * DigitsValue(digits) + d
  {
    DigitOf(d);
    assert (digits + [DIGITS[d]])[..|digits|] == digits;
  }

  lemma {:induction false} DecimalReads(n: nat)
    ensures Decimal(n) != [] && AllDigits(Decimal(n)) && DigitsValue(Decimal(n)) == n
  {
    if n < 10 {
      DigitAppended([], n);
      assert [] + [DIGITS[n]] == Decimal(n);
    } else {
      DecimalReads(n / 10);
      DigitAppended(Decimal(n / 10), n % 10);
    }
  }

  lemma {:induction false} ZerosReadNothing(k: nat)
    ensures AllDigits(Zeros(k)) && DigitsValue(Zeros(k)) == 0
  {
    if k == 0 {
    } else {
      ZerosReadNothing(k - 1);
      assert Zeros(k)[..k - 1] == Zeros(k - 1);
    }
  }

  /** Leading zeros do not count. */
  lemma {:induction false} ZerosInFront(k: nat, digits: string)
    requires AllDigits(digits)
    ensures AllDigits(Zeros(k) + digits) && DigitsValue(Zeros(k) + digits) == DigitsValue(digits)
  {
    ZerosReadNothing(k);
    if digits == [] {
      assert Zeros(k) + digits == Zeros(k);
    } else {
      var front := digits[..|digits| - 1];
      ZerosInFront(k, front);
      assert (Zeros(k) + digits)[..k + |digits| - 1] == Zeros(k) + front;
    }
  }

  lemma DecimalStep(n: nat, d: nat)
    requires n > 0 && d < 10
    ensures Decimal(10 * n + d) == Decimal(n) + [DIGITS[d]]
  {
    assert (10 * n + d) / 10 == n && (10 * n + d) % 10 == d;
  }

  lemma AnotherZero(k: nat)
    ensures Zeros(k) + Decimal(0) == Zeros(k + 1)
  {
  }

  lemma OneMoreDigit(k: nat, n: nat, d: nat) returns (j: nat)
    requires d < 10
    ensures Zeros(k) + Decimal(n) + [DIGITS[d]] == Zeros(j) + Decimal(10 * n + d)
  {
    if n == 0 {
      AnotherZero(k);
      j := k + 1;
    } else {
      DecimalStep(n, d);
      j := k;
    }
  }

  /** Every string of digits is the decimal text of its value behind zeros. */
  lemma {:induction false} DigitsAreDecimal(digits: string) returns (k: nat)
    requires digits != [] && AllDigits(digits)
    ensures digits == Zeros(k) + Decimal(DigitsValue(digits))
  {
    var front, d := digits[..|digits| - 1], Digit(digits[|digits| - 1]);
    DigitAt(digits[|digits| - 1]);
    assert digits == front + [DIGITS[d]];
    if front == [] {
      k := 0;
    } else {
      var j := DigitsAreDecimal(front);
      k := OneMoreDigit(j, DigitsValue(front), d);
    }
  }

  lemma UnsignedReads(digits: string)
    requires digits != [] && AllDigits(digits)
    ensures ParseInt(digits) == Some(DigitsValue(digits))
  {
    assert IsDigit(digits[0]);
  }

  lemma SignedReads(sign: string, digits: string)
    requires (sign == "-" || sign == "+") && digits != [] && AllDigits(digits)
    ensures ParseInt(sign + digits) == Some(if sign == "-" then -(DigitsValue(digits) as int) else DigitsValue(digits))
  {
    assert (sign + digits)[0] == sign[0] && (sign + digits)[1..] == digits;
  }

  lemma WrittenReads(sign: string, k: nat, v: int)
    requires (sign == "-" || sign == "+" || sign == "") && (v < 0 ==> sign == "-") && (v > 0 ==> sign != "-")
    ensures ParseInt(Written(sign, k, v)) == Some(v)
  {
    var n := if v < 0 then -v else v;
    var digits := Zeros(k) + Decimal(n);
    DecimalReads(n);
    ZerosInFront(k, Decimal(n));
    if sign == "" {
      assert "" + digits == digits;
      UnsignedReads(digits);
    } else {
      SignedReads(sign, digits);
    }
  }

  /** What `int` accepts is a sign, if any, and digits. */
  lemma SignAndDigits(text: string) returns (sign: string, digits: string)
    requires ParseInt(text).Some?
    ensures text == sign + digits && digits != [] && AllDigits(digits)
    ensures sign == "-" || sign == "+" || sign == ""
  {
    if text[0] == '+' || text[0] == '-' {
      sign, digits := text[..1], text[1..];
    } else {
      sign, digits := "", text;
    }
  }

  lemma NumeralRead(text: string, v: int)
    requires ParseInt(text) == Some(v)
    ensures IsNumeral(text, v)
  {
    var sign, digits := SignAndDigits(text);
    var k := DigitsAreDecimal(digits);
    if sign == "" {
      assert text == digits;
      UnsignedReads(digits);
    } else {
      SignedReads(sign, digits);
    }
    assert text == Written(sign, k, v);
  }

  /** `int` reads exactly the numerals, each as its number. */
  lemma ParseIntReads(text: string, v: int)
    ensures ParseInt(text) == Some(v) <==> IsNumeral(text, v)
  {
    if ParseInt(text) == Some(v) {
      NumeralRead(text, v);
    }
    if IsNumeral(text, v) {
      var sign: string, k: nat :|
        && text == Written(sign, k, v)
        && (sign == "-" || sign == "+" || sign == "") && (v < 0 ==> sign == "-") && (v > 0 ==> sign != "-");
      WrittenReads(sign, k, v);
    }
  }

  // ----- one field -----

  /** The `k`-th step of `n` from `lo`. */
  function Nth(lo: nat, n: nat, k: nat): nat {
    lo + k * n
  }

  ghost predicate Steps(lo: nat, n: nat, v: nat) {
    exists k: nat :: v == Nth(lo, n, k)
  }

  /** The field is `*`/n for this n. */
  ghost predicate IsStep(part: string, n: int) {
    |part| >= 2 && part[0] == '*' && part[1] == '/' && IsNumeral(part[2..], n)
  }

  /** A field is a star, a star with a positive step, or a number in range. */
  ghost predicate Accepted(part: string, lo: nat, hi: nat) {
    part == "*" || (exists n: int :: n > 0 && IsStep(part, n)) || exists v: int :: lo <= v <= hi && IsNumeral(part, v)
  }

  /** A star allows its whole range, a step of n every n-th value from the minimum, and a number itself. */
  ghost predicate Allows(part: string, lo: nat, hi: nat, v: nat) {
    && lo <= v <= hi
    && (part == "*" || IsNumeral(part, v) || exists n: nat :: n > 0 && IsStep(part, n) && Steps(lo, n, v))
  }

  lemma MultiplesAreFar(d: int, n: nat)
    ensures d >= 1 ==> d * n >= n
    ensures d <= -1 ==> d * n <= -(n as int)
  {
    if d >= 1 {
      assert (d - 1) * n >= 0;
    } else if d <= -1 {
      assert (-1 - d) * n >= 0;
    }
  }

  lemma NoRemainder(k: int, q: int, r: nat, n: nat)
    requires k * n == q * n + r && r < n
    ensures r == 0
  {
    assert (k - q) * n == k * n - q * n;
    MultiplesAreFar(k - q, n);
  }

  lemma MultipleLeavesNothing(k: nat, n: nat)
    requires n > 0
    ensures k * n >= 0 && (k * n) % n == 0
  {
    var x := k * n;
    assert x == x / n * n + x % n;
    NoRemainder(k, x / n, x % n, n);
  }

  lemma OnStepIff(lo: nat, n: nat, v: nat)
    requires n > 0
    ensures OnStep(v, lo, n) <==> Steps(lo, n, v)
  {
    if OnStep(v, lo, n) {
      assert v == Nth(lo, n, (v - lo) / n);
    }
    if Steps(lo, n, v) {
      var k: nat :| v == Nth(lo, n, k);
      MultipleLeavesNothing(k, n);
    }
  }

  lemma StarIsNoNumeral(part: string, v: int)
    requires part != [] && part[0] == '*'
    ensures !IsNumeral(part, v)
  {
    NotAnInteger(part);
    ParseIntReads(part, v);
  }

  /** A text is the numeral of one number at most. */
  lemma OneNumber(text: string, v: int, w: int)
    requires IsNumeral(text, v) && IsNumeral(text, w)
    ensures v == w
  {
    ParseIntReads(text, v);
    ParseIntReads(text, w);
  }

  lemma StarMeaning(lo: nat, hi: nat, v: nat)
    requires lo <= hi
    ensures ParsePart("*", lo, hi).Ok? && (v in ParsePart("*", lo, hi).value <==> Allows("*", lo, hi, v))
  {
    assert v in Range(lo, hi + 1, 1) <==> v < hi + 1 && OnStep(v, lo, 1);
  }

  /** `*`/n allows the minimum and every n-th value after it, up to the maximum. */
  lemma StepMeaning(text: string, n: int, lo: nat, hi: nat)
    requires lo <= hi && IsNumeral(text, n)
    ensures var r := ParsePart("*/" + text, lo, hi);
            && (r.Ok? <==> n > 0) && (r.Err? ==> r.error == BadRequest(CronStepNotPositive))
            && (n > 0 ==> forall v: nat :: v in r.value <==> lo <= v <= hi && Steps(lo, n, v))
  {
    ParseIntReads(text, n);
    var part := "*/" + text;
    assert part[..2] == "*/" && part[2..] == text && part != "*";
    if n > 0 {
      forall v: nat ensures v in ParsePart(part, lo, hi).value <==> lo <= v <= hi && Steps(lo, n, v) {
        OnStepIff(lo, n, v);
      }
    }
  }

  /** A number allows itself, if it is in range. */
  lemma NumberMeaning(part: string, n: int, lo: nat, hi: nat)
    requires IsNumeral(part, n)
    ensures ParsePart(part, lo, hi) == if lo <= n <= hi then Ok({n as nat}) else Err(BadRequest(CronValueOutOfRange))
  {
    ParseIntReads(part, n);
    if part[0] == '*' {
      StarIsNoNumeral(part, n);
    }
  }

  /** Anything else is refused: a step that is no integer as such, and other texts for being none of the three. */
  lemma OtherwiseRefused(part: string, lo: nat, hi: nat)
    requires part != "*" && forall n: int :: !IsNumeral(part, n) && !IsStep(part, n)
    ensures ParsePart(part, lo, hi) ==
            Err(BadRequest(if |part| >= 2 && part[..2] == "*/" then CronStepNotInteger else CronFieldNotRecognised))
  {
    if ParseInt(part).Some? {
      ParseIntReads(part, ParseInt(part).value);
    }
    if "*/" <= part {
      assert part[0] == '*' && part[1] == '/';
      if ParseInt(part[2..]).Some? {
        assert !IsStep(part, ParseInt(part[2..]).value);
        ParseIntReads(part[2..], ParseInt(part[2..]).value);
      }
    }
  }

  lemma StepParts(part: string, n: int)
    requires IsStep(part, n)
    ensures part == "*/" + part[2..] && part != "*"
  {
  }

  lemma StepFieldMeaning(part: string, n: int, lo: nat, hi: nat)
    requires lo <= hi && IsStep(part, n)
    ensures ParsePart(part, lo, hi).Ok? <==> Accepted(part, lo, hi)
    ensures ParsePart(part, lo, hi).Ok? ==>
              forall v: nat :: v in ParsePart(part, lo, hi).value <==> Allows(part, lo, hi, v)
  {
    StepParts(part, n);
    StepMeaning(part[2..], n, lo, hi);
    forall v: int ensures !IsNumeral(part, v) {
      StarIsNoNumeral(part, v);
    }
    forall m: int | IsStep(part, m) ensures m == n {
      OneNumber(part[2..], m, n);
    }
  }

  lemma NumberFieldMeaning(part: string, n: int, lo: nat, hi: nat)
    requires lo <= hi && IsNumeral(part, n)
    ensures ParsePart(part, lo, hi).Ok? <==> Accepted(part, lo, hi)
    ensures ParsePart(part, lo, hi).Ok? ==>
              forall v: nat :: v in ParsePart(part, lo, hi).value <==> Allows(part, lo, hi, v)
  {
    NumberMeaning(part, n, lo, hi);
    forall m: int ensures !IsStep(part, m) {
      if IsStep(part, m) {
        StarIsNoNumeral(part, n);
      }
    }
    if part == "*" {
      StarIsNoNumeral(part, n);
    }
    forall m: int | IsNumeral(part, m) ensures m == n {
      OneNumber(part, m, n);
    }
  }

  /** The validator accepts exactly these fields, and the set a field parses to is exactly what it allows. */
  lemma FieldMeaning(part: string, lo: nat, hi: nat)
    requires lo <= hi
    ensures ParsePart(part, lo, hi).Ok? <==> Accepted(part, lo, hi)
    ensures ParsePart(part, lo, hi).Ok? ==>
              forall v: nat :: v in ParsePart(part, lo, hi).value <==> Allows(part, lo, hi, v)
  {
    if part == "*" {
      forall v: nat
        ensures ParsePart("*", lo, hi).Ok? && (v in ParsePart("*", lo, hi).value <==> Allows("*", lo, hi, v))
      {
        StarMeaning(lo, hi, v);
      }
    } else if n: int :| IsStep(part, n) {
      StepFieldMeaning(part, n, lo, hi);
    } else if n: int :| IsNumeral(part, n) {
      NumberFieldMeaning(part, n, lo, hi);
    } else {
      OtherwiseRefused(part, lo, hi);
    }
  }

  // ----- the whole expression -----

  /** Five fields, each accepted in its range. */
  ghost predicate FiveFields(words: seq<string>) {
    && |words| == 5
    && Accepted(words[0], 0, 59) && Accepted(words[1], 0, 23) && Accepted(words[2], 1, 31)
    && Accepted(words[3], 1, 12) && Accepted(words[4], 0, 6)
  }

  lemma FieldsParse(words: seq<string>)
    requires |words| == 5
    ensures ParseParts(words).Ok? <==> FiveFields(words)
  {
    FieldMeaning(words[0], 0, 59);
    FieldMeaning(words[1], 0, 23);
    FieldMeaning(words[2], 1, 31);
    FieldMeaning(words[3], 1, 12);
    FieldMeaning(words[4], 0, 6);
  }

  lemma RefusedFieldCounts(words: seq<string>)
    requires |words| == 5
    ensures ParseParts(words) != Err(BadRequest(CronFieldCount))
  {
  }

  lemma JoinOfFive(words: seq<string>)
    requires |words| == 5
    ensures Join(words) == words[0] + " " + words[1] + " " + words[2] + " " + words[3] + " " + words[4]
  {
    assert words[1..][1..] == words[2..] && words[2..][1..] == words[3..] && words[3..][1..] == words[4..];
    assert Join(words[4..]) == words[4];
    assert Join(words[3..]) == words[3] + " " + words[4];
    assert Join(words[2..]) == words[2] + " " + Join(words[3..]);
    assert Join(words[1..]) == words[1] + " " + Join(words[2..]);
  }

  /** The validator accepts five accepted fields in whatever spacing, and gives them back with single spaces. */
  lemma ValidateMeaning(expression: string)
    ensures var words, r := Split(expression), Validate(expression);
            && (r.Ok? <==> FiveFields(words))
            && (r.Ok? ==> r.value == words[0] + " " + words[1] + " " + words[2] + " " + words[3] + " " + words[4])
            && (r == Err(BadRequest(CronFieldCount)) <==> |words| != 5)
  {
    SplitOfStrip(expression);
    var words := Split(expression);
    if |words| == 5 {
      FieldsParse(words);
      RefusedFieldCounts(words);
      JoinOfFive(words);
    }
  }

  /** All five fields allow minute number `m`. */
  ghost predicate AllowsMinute(words: seq<string>, m: nat)
    requires |words| == 5
  {
    var date := DateOf(m / 1440);
    && Allows(words[0], 0, 59, m % 60)
    && Allows(words[1], 0, 23, m / 60 % 24)
    && Allows(words[2], 1, 31, date.day)
    && Allows(words[3], 1, 12, date.month)
    && Allows(words[4], 0, 6, Weekday(m / 1440))
  }

  lemma MatchesMeaning(words: seq<string>, m: nat)
    requires |words| == 5 && ParseParts(words).Ok?
    ensures Matches(ParseParts(words).value, m) <==> AllowsMinute(words, m)
  {
    FieldMeaning(words[0], 0, 59);
    FieldMeaning(words[1], 0, 23);
    FieldMeaning(words[2], 1, 31);
    FieldMeaning(words[3], 1, 12);
    FieldMeaning(words[4], 0, 6);
    PartsAllowMatches(words, m);
  }

  /** No minute after `lo` and before `hi` is allowed. */
  ghost predicate NoneAllowed(words: seq<string>, lo: nat, hi: nat)
    requires |words| == 5
  {
    forall m :: lo < m < hi ==> !AllowsMinute(words, m)
  }

  lemma NoMatchMeaning(words: seq<string>, lo: nat, hi: nat)
    requires |words| == 5 && ParseParts(words).Ok?
    ensures NoMatchIn(ParseParts(words).value, lo + 1, hi) <==> NoneAllowed(words, lo, hi)
  {
    forall m ensures Matches(ParseParts(words).value, m) <==> AllowsMinute(words, m) {
      MatchesMeaning(words, m);
    }
  }

  /** The instant is the start of the first allowed minute after minute `from`, at most 527,040 minutes on. */
  ghost predicate IsFirstRun(words: seq<string>, from: nat, t: Time)
    requires |words| == 5
  {
    var m := t / 60_000_000;
    && t == m * 60_000_000 && from < m <= from + 527_040
    && AllowsMinute(words, m) && NoneAllowed(words, from, m)
  }

  lemma FirstMatchMeaning(words: seq<string>, from: nat, t: Time)
    requires |words| == 5 && ParseParts(words).Ok? && IsFirstMatch(ParseParts(words).value, from + 1, t)
    ensures IsFirstRun(words, from, t)
  {
    var m := MinuteOf(t);
    MatchesMeaning(words, m);
    NoMatchMeaning(words, from, m);
  }

  ghost predicate IsOutcome(words: seq<string>, from: nat, r: Result<Time>)
    requires |words| == 5
  {
    match r
    case Ok(t) => IsFirstRun(words, from, t)
    case Err(e) => e == BadRequest(CronNoRun) && NoneAllowed(words, from, from + 527_041)
  }

  lemma StoredRunMeaning(expression: string, after: Time)
    requires Normalised(expression)
    ensures |Split(expression)| == 5 && IsOutcome(Split(expression), MinuteOf(after), NextRun(expression, after))
  {
    NormalisedSplits(expression);
    var words, r := Split(expression), NextRun(expression, after);
    NextRunRaisesIff(expression, after);
    if r.Ok? {
      NextRunIsLeast(expression, after);
      FirstMatchMeaning(words, MinuteOf(after), r.value);
    } else {
      NoMatchMeaning(words, MinuteOf(after), MinuteOf(after) + 1 + WINDOW);
    }
  }

  lemma SearchedAsStored(expression: string, after: Time)
    requires Validate(expression).Ok?
    ensures Normalised(Validate(expression).value) && Split(Validate(expression).value) == Split(expression)
    ensures NextRun(expression, after) == NextRun(Validate(expression).value, after)
  {
    ValidateNormalises(expression);
  }

  /** The search in terms of the expression's text: the next run is the first of the following 527,040 minutes that
      all five fields allow, at its start; without one, or with a text that is no expression, the search raises. */
  lemma RunMeaning(expression: string, after: Time)
    ensures var words, r := Split(expression), NextRun(expression, after);
            if FiveFields(words) then IsOutcome(words, after / 60_000_000, r)
            else Validate(expression).Err? && r == Err(Validate(expression).error)
  {
    ValidateMeaning(expression);
    if Validate(expression).Ok? {
      SearchedAsStored(expression, after);
      StoredRunMeaning(Validate(expression).value, after);
    }
  }

  // ----- every n minutes -----

  /** The minute of the hour is a multiple of n. */
  predicate OnMultiple(n: nat, m: nat)
    requires n > 0
  {
    m % 60 % n == 0
  }

  function EveryMinutes(text: string): seq<string> {
    ["*/" + text, "*", "*", "*", "*"]
  }

  lemma CharactersOfNumeral(text: string)
    requires ParseInt(text).Some?
    ensures text != [] && forall i :: 0 <= i < |text| ==> text[i] == '+' || text[i] == '-' || IsDigit(text[i])
  {
    var sign, digits := SignAndDigits(text);
    forall i | 0 <= i < |text| ensures text[i] == '+' || text[i] == '-' || IsDigit(text[i]) {
      assert i >= |sign| ==> text[i] == digits[i - |sign|];
    }
  }

  lemma NumeralIsWord(text: string, n: int)
    requires IsNumeral(text, n)
    ensures IsWord(text)
  {
    ParseIntReads(text, n);
    CharactersOfNumeral(text);
  }

  lemma EverySplits(text: string, n: int)
    requires IsNumeral(text, n)
    ensures Split("*/" + text + " * * * *") == EveryMinutes(text)
  {
    NumeralIsWord(text, n);
    var words := EveryMinutes(text);
    forall i | 0 <= i < |words[0]| ensures !IsSpace(words[0][i]) {
      assert i >= 2 ==> words[0][i] == text[i - 2];
    }
    assert AllWords(words);
    JoinOfFive(words);
    assert Join(words) == "*/" + text + " * * * *";
    SplitOfJoin(words);
  }

  lemma EveryAllows(text: string, n: nat, m: nat)
    requires n > 0 && IsNumeral(text, n)
    ensures AllowsMinute(EveryMinutes(text), m) <==> OnMultiple(n, m)
  {
    var part := "*/" + text;
    assert part[2..] == text && IsStep(part, n);
    forall v: int ensures !IsNumeral(part, v) {
      StarIsNoNumeral(part, v);
    }
    forall k: int | IsStep(part, k) ensures k == n {
      OneNumber(text, k, n);
    }
    OnStepIff(0, n, m % 60);
  }

  lemma EveryIsAccepted(text: string, n: nat)
    requires n > 0 && IsNumeral(text, n)
    ensures FiveFields(EveryMinutes(text))
  {
    assert ("*/" + text)[2..] == text && IsStep("*/" + text, n);
  }

  lemma NextHour(from: nat) returns (hour: nat)
    ensures from < hour <= from + 60 && hour % 60 == 0
  {
    hour := (from / 60 + 1) * 60;
  }

  lemma EveryHourAllows(text: string, n: nat, from: nat)
    requires n > 0 && IsNumeral(text, n)
    ensures !NoneAllowed(EveryMinutes(text), from, from + 527_041)
  {
    var hour := NextHour(from);
    EveryAllows(text, n, hour);
  }

  lemma EveryOutcome(text: string, n: nat, from: nat, r: Result<Time>)
    requires n > 0 && IsNumeral(text, n) && IsOutcome(EveryMinutes(text), from, r)
    requires !NoneAllowed(EveryMinutes(text), from, from + 527_041)
    ensures r.Ok?
    ensures var m := r.value / 60_000_000;
            && r.value == m * 60_000_000 && m > from && OnMultiple(n, m)
            && forall k :: from < k < m ==> !OnMultiple(n, k)
  {
    var m := r.value / 60_000_000;
    EveryAllows(text, n, m);
    forall k | from < k < m ensures !OnMultiple(n, k) {
      EveryAllows(text, n, k);
    }
  }

  /** `*`/n in the minute field, with stars elsewhere: a run is found after every instant, at a minute of the hour
      that is a multiple of n, and there is no such minute between the two. */
  lemma RunsEveryNMinutes(text: string, n: nat, after: Time)
    requires n > 0 && IsNumeral(text, n)
    ensures var r, from := NextRun("*/" + text + " * * * *", after), after / 60_000_000;
            && r.Ok?
            && var m := r.value / 60_000_000;
               && r.value == m * 60_000_000 && m > from && OnMultiple(n, m)
               && forall k :: from < k < m ==> !OnMultiple(n, k)
  {
    var from := MinuteOf(after);
    EverySplits(text, n);
    EveryIsAccepted(text, n);
    RunMeaning("*/" + text + " * * * *", after);
    EveryHourAllows(text, n, from);
    EveryOutcome(text, n, from, NextRun("*/" + text + " * * * *", after));
  }
}
