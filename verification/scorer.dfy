/**
 * `check_password_strength`: seven independent checks, each contributing a
 * score delta and one feedback line, a five-field criteria record, a
 * category chosen from the raw score, and a returned score clamped to
 * [0, 100]. The entropy and crack-time fields are filled through the
 * Entropy and CrackTime modules.
 */
module Scorer {
  import opened Wrappers
  import opened CharClasses
  import opened Scan
  import opened Entropy
  import opened CrackTime

  datatype Strength = Weak | Medium | Strong

  /** The mark a feedback line carries: a tick, a cross or a warning sign. */
  datatype Tag = Pass | Fail | Warn

  /** The seven checks, in the order their feedback lines appear. */
  datatype Check = Length | Lowercase | Uppercase | Numbers | Special | CommonPattern | Repetition

  datatype Feedback = Feedback(check: Check, tag: Tag, message: string)

  /** The `criteria` dictionary: one flag per key. */
  datatype Criteria = Criteria(length: bool, lowercase: bool, uppercase: bool, numbers: bool, special: bool)

  /** The returned dictionary, less the presentation-only `color` and `emoji`. */
  datatype Analysis = Analysis(
    score: int,
    strength: Strength,
    feedback: seq<Feedback>,
    criteria: Criteria,
    entropy: real,
    crackTime: Duration)

  /**
   * Everything the seven checks look at: the length, which of the four
   * scoring classes occur, and whether a common pattern or a run occurs.
   */
  datatype Facts = Facts(length: nat, lower: bool, upper: bool, digit: bool, punct: bool, common: bool, run: bool)

  /** One check's outcome: what it adds to the score and the line it reports. */
  datatype Verdict = Verdict(delta: int, line: Feedback)

  const CheckOrder: seq<Check> := [Length, Lowercase, Uppercase, Numbers, Special, CommonPattern, Repetition]

  /** Substrings whose presence in the lower-cased password costs points. */
  const CommonPatterns: seq<string> := ["123", "abc", "password", "qwerty", "111", "000"]

  /** `criteria['length']`: at least 8 characters. */
  const MinLength: nat := 8

  /** The length needed for the top length tier. */
  const ExcellentLength: nat := 12

  /**
   * Some common pattern occurs in the lower-cased password. Every pattern has
   * three characters and starts with a letter or a digit, so a password that
   * carries one is at least that long and has a letter or a digit.
   */
  predicate HasCommonPattern(s: string): (b: bool)
    ensures b ==> |s| >= 3
    ensures b ==> exists i :: 0 <= i < |s| && (IsLower(s[i]) || IsUpper(s[i]) || IsDigit(s[i]))
  {
    if exists k :: 0 <= k < |CommonPatterns| && Contains(ToLower(s), CommonPatterns[k]) then
      PatternNeedsClass(s);
      true
    else
      false
  }

  lemma {:induction false} PatternNeedsClass(s: string)
    requires exists k :: 0 <= k < |CommonPatterns| && Contains(ToLower(s), CommonPatterns[k])
    ensures |s| >= 3
    ensures exists i :: 0 <= i < |s| && (IsLower(s[i]) || IsUpper(s[i]) || IsDigit(s[i]))
  {
    var k :| 0 <= k < |CommonPatterns| && Contains(ToLower(s), CommonPatterns[k]);
    PatternStartsWithLetterOrDigit(k);
    var j := OccurrenceStart(s, CommonPatterns[k]);
  }

  /**
   * Where a word starting with a letter or a digit occurs in the lowered
   * text, the original text has a letter or a digit.
   */
  lemma {:induction false} OccurrenceStart(s: string, pat: string) returns (j: nat)
    requires 1 <= |pat| && (IsLower(pat[0]) || IsDigit(pat[0]))
    requires Contains(ToLower(s), pat)
    ensures j + |pat| <= |s|
    ensures IsLower(s[j]) || IsUpper(s[j]) || IsDigit(s[j])
  {
    j :| OccursAt(pat, ToLower(s), j);
    LoweredLetterOrDigit(s[j]);
  }

  lemma PatternStartsWithLetterOrDigit(k: nat)
    requires k < |CommonPatterns|
    ensures 3 <= |CommonPatterns[k]|
    ensures IsLower(CommonPatterns[k][0]) || IsDigit(CommonPatterns[k][0])
  {
  }

  lemma LoweredLetterOrDigit(c: char)
    requires IsLower(LowerChar(c)) || IsDigit(LowerChar(c))
    ensures IsLower(c) || IsUpper(c) || IsDigit(c)
  {
  }

  /**
   * A match of the regular expression `(.)\1{2,}` starts at `i`: three equal
   * characters in a row, the first of which `.` accepts, i.e. not a newline.
   */
  predicate RunAt(s: string, i: int)
  {
    0 <= i && i + 2 < |s| && s[i] != '\n' && s[i] == s[i + 1] && s[i + 1] == s[i + 2]
  }

  /** `re.search(r'(.)\1{2,}', s)` finds a match. */
  function HasRun(s: string): (r: bool)
    ensures r <==> exists i :: RunAt(s, i)
    decreases |s|
  {
    if |s| < 3 then false
    else if RunAt(s, 0) then true
    else
      var rest := HasRun(s[1..]);
      assert forall i :: RunAt(s[1..], i) <==> RunAt(s, i + 1);
      assert forall i :: RunAt(s, i) && i != 0 ==> RunAt(s[1..], i - 1);
      rest
  }

  /** The facts of a password, as the checks compute them. */
  function FactsOf(s: string): (f: Facts)
    ensures f.length == |s|
    ensures f.lower <==> exists i :: 0 <= i < |s| && IsLower(s[i])
    ensures f.upper <==> exists i :: 0 <= i < |s| && IsUpper(s[i])
    ensures f.digit <==> exists i :: 0 <= i < |s| && IsDigit(s[i])
    ensures f.punct <==> exists i :: 0 <= i < |s| && IsPunctuation(s[i])
    ensures f.common <==> exists k :: 0 <= k < |CommonPatterns| && Contains(ToLower(s), CommonPatterns[k])
    ensures f.run <==> exists i :: RunAt(s, i)
  {
    var p := Profile(s);
    Facts(|s|, p.lower, p.upper, p.digit, p.punct, HasCommonPattern(s), HasRun(s))
  }

  /** The feedback texts, without their leading mark (the `Tag`). */
  const ExcellentLengthLine: string := "Excellent length (12+ characters)"
  const GoodLengthLine: string := "Good length (8+ characters)"
  const TooShortLine: string := "Too short (minimum 8 characters recommended)"
  const CommonPatternLine: string := "Contains common patterns (avoid sequences like '123', 'abc', 'password')"
  const NoCommonPatternLine: string := "No common patterns detected"
  const RunLine: string := "Contains repeated characters"
  const NoRunLine: string := "No excessive character repetition"
  const LowercaseNoun: string := "lowercase letters"
  const UppercaseNoun: string := "uppercase letters"
  const NumbersNoun: string := "numbers"
  const SpecialNoun: string := "special characters"

  function LengthVerdict(n: nat): Verdict
  {
    if n >= ExcellentLength then Verdict(25, Feedback(Length, Pass, ExcellentLengthLine))
    else if n >= MinLength then Verdict(15, Feedback(Length, Pass, GoodLengthLine))
    else Verdict(0, Feedback(Length, Fail, TooShortLine))
  }

  /** A class-presence check worth `points` when some character of the class occurs. */
  function PresenceVerdict(check: Check, present: bool, points: nat, what: string): Verdict
  {
    if present then Verdict(points, Feedback(check, Pass, "Contains " + what))
    else Verdict(0, Feedback(check, Fail, "Missing " + what))
  }

  function PatternVerdict(common: bool): Verdict
  {
    if common then
      Verdict(-10, Feedback(CommonPattern, Warn, CommonPatternLine))
    else
      Verdict(10, Feedback(CommonPattern, Pass, NoCommonPatternLine))
  }

  function RepetitionVerdict(run: bool): Verdict
  {
    if run then Verdict(-5, Feedback(Repetition, Warn, RunLine))
    else Verdict(10, Feedback(Repetition, Pass, NoRunLine))
  }

  /** The seven checks of `check_password_strength` as an ordered rule list. */
  function Verdicts(f: Facts): (vs: seq<Verdict>)
    ensures |vs| == |CheckOrder|
    ensures forall i :: 0 <= i < |vs| ==> vs[i].line.check == CheckOrder[i]
  {
    [ LengthVerdict(f.length),
      PresenceVerdict(Lowercase, f.lower, 10, LowercaseNoun),
      PresenceVerdict(Uppercase, f.upper, 10, UppercaseNoun),
      PresenceVerdict(Numbers, f.digit, 10, NumbersNoun),
      PresenceVerdict(Special, f.punct, 15, SpecialNoun),
      PatternVerdict(f.common),
      RepetitionVerdict(f.run) ]
  }

  /** The sum of the deltas. */
  function Total(vs: seq<Verdict>): int
  {
    if |vs| == 0 then 0 else vs[0].delta + Total(vs[1..])
  }

  /** The score before clamping, as accumulated in `score`: within [-15, 90] for any facts. */
  function RawScore(f: Facts): (r: int)
    ensures -15 <= r <= 90
  {
    TotalOfSeven(Verdicts(f));
    Total(Verdicts(f))
  }

  function Lines(vs: seq<Verdict>): (ls: seq<Feedback>)
    ensures |ls| == |vs|
    ensures forall i :: 0 <= i < |vs| ==> ls[i] == vs[i].line
  {
    if |vs| == 0 then [] else [vs[0].line] + Lines(vs[1..])
  }

  /** `max(0, min(100, score))`. */
  function Clamp(score: int): (r: int)
    ensures 0 <= r <= 100
    ensures 0 <= score <= 100 ==> r == score
  {
    if score < 0 then 0 else if score > 100 then 100 else score
  }

  /** The category thresholds, 75 and 50. */
  function Classify(score: int): (c: Strength)
    ensures c == Strong <==> score >= 75
    ensures c == Medium <==> 50 <= score < 75
    ensures c == Weak <==> score < 50
  {
    if score >= 75 then Strong else if score >= 50 then Medium else Weak
  }

  /**
   * `check_password_strength(s)`, with `log2` and `pow2` standing for
   * `math.log2` and `2 ** x`. Returns `None` exactly for the empty password.
   */
  function Analyze(s: string, log2: nat -> real, pow2: real -> real): (r: Option<Analysis>)
    ensures r.None? <==> |s| == 0
    ensures r.Some? ==> |r.value.feedback| == |CheckOrder|
    ensures r.Some? ==> forall i :: 0 <= i < |CheckOrder| ==> r.value.feedback[i].check == CheckOrder[i]
    ensures r.Some? ==> (r.value.criteria.length <==> |s| >= 8)
    ensures r.Some? ==> (r.value.criteria.lowercase <==> exists i :: 0 <= i < |s| && IsLower(s[i]))
    ensures r.Some? ==> (r.value.criteria.uppercase <==> exists i :: 0 <= i < |s| && IsUpper(s[i]))
    ensures r.Some? ==> (r.value.criteria.numbers <==> exists i :: 0 <= i < |s| && IsDigit(s[i]))
    ensures r.Some? ==> (r.value.criteria.special <==> exists i :: 0 <= i < |s| && IsPunctuation(s[i]))
    ensures r.Some? ==> 0 <= r.value.score <= 100
    ensures r.Some? ==> (CharsetSize(s) == 0 ==> r.value.entropy == 0.0)
  {
    if |s| == 0 then None
    else
      var f := FactsOf(s);
      var raw := RawScore(f);
      var bits := EntropyBits(s, log2);
      Some(Analysis(
        Clamp(raw),
        Classify(raw),
        Lines(Verdicts(f)),
        Criteria(f.length >= MinLength, f.lower, f.upper, f.digit, f.punct),
        bits,
        EstimateCrackTime(bits, pow2)))
  }

  /** What `check_password_strength` does as written: it returns a result, or it raises. */
  datatype CheckOutcome = Returned(result: Option<Analysis>) | Raised

  /**
   * `check_password_strength(s)` exactly as written, with the crack time
   * from the as-written estimate: the exception of `2 ** entropy` escapes
   * uncaught.
   */
  function AnalyzeAsWritten(s: string, log2: nat -> real, pow2: real -> real): (r: CheckOutcome)
    ensures r.Raised? <==> |s| > 0 && EntropyBits(s, log2) >= FloatExponentLimit
    ensures r.Returned? ==> r.result == Analyze(s, log2, pow2)
  {
    if |s| == 0 then Returned(None)
    else
      var f := FactsOf(s);
      var raw := RawScore(f);
      var bits := EntropyBits(s, log2);
      match EstimateCrackTimeAsWritten(bits, pow2)
      case OverflowError => Raised
      case Estimated(d) =>
        CorrectedAgreesWhereDefined(bits, pow2);
        Returned(Some(Analysis(
          Clamp(raw),
          Classify(raw),
          Lines(Verdicts(f)),
          Criteria(f.length >= MinLength, f.lower, f.upper, f.digit, f.punct),
          bits,
          d)))
  }

  /**
   * The scoring table, as a function of the facts: the length tier,
   * 10/10/10/15 per class present, -10 or +10 for a common pattern, -5 or +10
   * for a run.
   */
  function TableScore(f: Facts): int
  {
    LengthPoints(f.length) + ClassPoints(f) + PenaltyPoints(f)
  }

  /** The length tiers: 25 from 12 characters, 15 from 8, nothing below. */
  function LengthPoints(n: nat): int
  {
    Points(n >= 12, 25, Points(n >= 8, 15, 0))
  }

  /** 10 each for lower case, upper case and digits, 15 for punctuation. */
  function ClassPoints(f: Facts): int
  {
    Points(f.lower, 10, 0) + Points(f.upper, 10, 0) + Points(f.digit, 10, 0) + Points(f.punct, 15, 0)
  }

  /** -10 or +10 for a common pattern, -5 or +10 for a run. */
  function PenaltyPoints(f: Facts): int
  {
    Points(f.common, -10, 10) + Points(f.run, -5, 10)
  }

  /** `award` when the condition holds, `otherwise` when it does not. */
  function Points(condition: bool, award: int, otherwise: int): int
  {
    if condition then award else otherwise
  }

  /** Unfolds `Total` over a rule list of seven entries. */
  lemma {:induction false} TotalOfSeven(vs: seq<Verdict>)
    requires |vs| == 7
    ensures Total(vs) == vs[0].delta + vs[1].delta + vs[2].delta + vs[3].delta + vs[4].delta + vs[5].delta + vs[6].delta
  {
    assert Total(vs[6..]) == vs[6].delta + Total(vs[7..]);
    assert Total(vs[5..]) == vs[5].delta + Total(vs[6..]);
    assert Total(vs[4..]) == vs[4].delta + Total(vs[5..]);
    assert Total(vs[3..]) == vs[3].delta + Total(vs[4..]);
    assert Total(vs[2..]) == vs[2].delta + Total(vs[3..]);
    assert Total(vs[1..]) == vs[1].delta + Total(vs[2..]);
  }

  /** The rule list adds up to the scoring table. */
  lemma {:induction false} RawScoreMatchesTable(f: Facts)
    ensures RawScore(f) == TableScore(f)
  {
    TotalOfSeven(Verdicts(f));
  }

  /** The raw score reaches 90 only with every check passed at its best. */
  lemma TopScore(f: Facts)
    ensures RawScore(f) == 90 <==> f.length >= 12 && f.lower && f.upper && f.digit && f.punct && !f.common && !f.run
  {
    RawScoreMatchesTable(f);
  }

  /**
   * No password reaches the -15 corner of the table: a common pattern brings
   * a letter or a digit along, so the raw score of a password is at least -5,
   * and it is -5 exactly for a short password with a single scoring class
   * other than punctuation, a common pattern and a run.
   */
  lemma BottomScore(s: string)
    ensures var f := FactsOf(s);
      && -5 <= RawScore(f)
      && (RawScore(f) == -5 <==>
            f.length < 8 && !f.punct && f.common && f.run
            && Points(f.lower, 1, 0) + Points(f.upper, 1, 0) + Points(f.digit, 1, 0) == 1)
  {
    var f := FactsOf(s);
    RawScoreMatchesTable(f);
    if f.common {
      assert f.lower || f.upper || f.digit;
    }
  }

  /**
   * The raw score is 75 or more exactly when at most 15 of the 90 points are
   * lost: nothing is missed, or exactly one of 8-11 length, lowercase,
   * uppercase or digits (10 points each), or exactly one of punctuation or a
   * run (15 points each). A common pattern (20 points) or a length under 8
   * (25 points) always rules Strong out.
   */
  lemma StrongCharacterization(f: Facts)
    ensures RawScore(f) >= 75 <==>
      var tenPointMisses := Points(f.length < 12, 1, 0) + Points(f.lower, 0, 1) + Points(f.upper, 0, 1) + Points(f.digit, 0, 1);
      var fifteenPointMisses := Points(f.punct, 0, 1) + Points(f.run, 1, 0);
      && f.length >= 8
      && !f.common
      && ((tenPointMisses == 0 && fifteenPointMisses <= 1) || (tenPointMisses == 1 && fifteenPointMisses == 0))
  {
    RawScoreMatchesTable(f);
  }

  /**
   * The checks are monotone: a longer password with more classes and no
   * penalty the other lacks never scores lower, and each extra class adds at
   * least its 10 points.
   */
  lemma FactsMonotone(f: Facts, g: Facts)
    requires f.length <= g.length
    requires f.lower ==> g.lower
    requires f.upper ==> g.upper
    requires f.digit ==> g.digit
    requires f.punct ==> g.punct
    requires g.common ==> f.common
    requires g.run ==> f.run
    ensures RawScore(f) <= RawScore(g)
    ensures (!f.lower && g.lower) || (!f.upper && g.upper) || (!f.digit && g.digit) || (!f.punct && g.punct)
      ==> RawScore(f) + 10 <= RawScore(g)
  {
    RawScoreMatchesTable(f);
    RawScoreMatchesTable(g);
    assert LengthPoints(f.length) <= LengthPoints(g.length);
    assert PenaltyPoints(f) <= PenaltyPoints(g);
    assert ClassPoints(f) <= ClassPoints(g);
  }

  /**
   * The returned score lies in [0, 90]: the lower clamp fires for a negative
   * raw score, the upper clamp never does.
   */
  lemma AnalyzeScore(s: string, log2: nat -> real, pow2: real -> real)
    requires |s| > 0
    ensures var a := Analyze(s, log2, pow2).value;
      && 0 <= a.score <= 90
      && (RawScore(FactsOf(s)) >= 0 ==> a.score == RawScore(FactsOf(s)))
      && (RawScore(FactsOf(s)) < 0 ==> a.score == 0)
  {
  }

  /**
   * The category is chosen from the raw score, yet it is always the category
   * of the clamped score.
   */
  lemma CategoryAgreesWithClampedScore(raw: int)
    ensures Classify(raw) == Classify(Clamp(raw))
  {
  }

  /** Applied to an analysis: its category is the one its own returned score falls in. */
  lemma AnalysisCategoryMatchesScore(s: string, log2: nat -> real, pow2: real -> real)
    requires |s| > 0
    ensures var a := Analyze(s, log2, pow2).value;
      a.strength == (if a.score >= 75 then Strong else if a.score >= 50 then Medium else Weak)
  {
    CategoryAgreesWithClampedScore(RawScore(FactsOf(s)));
  }

  /**
   * The feedback marks agree with the facts: a tick for each satisfied
   * check, a cross for each missed class or short length, a warning for each
   * penalty. `Lines` keeps each rule's line at its position, so these are
   * the marks of the feedback list.
   */
  lemma FeedbackTagsMatchFacts(f: Facts)
    ensures var vs := Verdicts(f);
      && (vs[0].line.tag == Pass <==> f.length >= 8) && vs[0].line.tag != Warn
      && (vs[1].line.tag == Pass <==> f.lower) && vs[1].line.tag != Warn
      && (vs[2].line.tag == Pass <==> f.upper) && vs[2].line.tag != Warn
      && (vs[3].line.tag == Pass <==> f.digit) && vs[3].line.tag != Warn
      && (vs[4].line.tag == Pass <==> f.punct) && vs[4].line.tag != Warn
      && (vs[5].line.tag == Warn <==> f.common) && vs[5].line.tag != Fail
      && (vs[6].line.tag == Warn <==> f.run) && vs[6].line.tag != Fail
  {
  }

  /** In an analysis, the first five marks are ticks exactly where the criteria hold. */
  lemma FeedbackTagsMatchCriteria(s: string, log2: nat -> real, pow2: real -> real)
    requires |s| > 0
    ensures var a := Analyze(s, log2, pow2).value;
      && (a.feedback[0].tag == Pass <==> a.criteria.length)
      && (a.feedback[1].tag == Pass <==> a.criteria.lowercase)
      && (a.feedback[2].tag == Pass <==> a.criteria.uppercase)
      && (a.feedback[3].tag == Pass <==> a.criteria.numbers)
      && (a.feedback[4].tag == Pass <==> a.criteria.special)
  {
    var f := FactsOf(s);
    var a := Analyze(s, log2, pow2).value;
    assert a.feedback == Lines(Verdicts(f));
    assert a.criteria == Criteria(f.length >= MinLength, f.lower, f.upper, f.digit, f.punct);
    FeedbackTagsMatchFacts(f);
  }

  /** A run, once present, survives any extension of the password. */
  lemma {:induction false} RunPersists(s: string, t: string)
    requires HasRun(s)
    ensures HasRun(s + t)
  {
    var i :| RunAt(s, i);
    var u := s + t;
    assert u[i] == s[i] && u[i + 1] == s[i + 1] && u[i + 2] == s[i + 2];
    assert RunAt(u, i);
  }

  /** A common pattern, once present, survives any extension of the password. */
  lemma {:induction false} CommonPatternPersists(s: string, t: string)
    requires HasCommonPattern(s)
    ensures HasCommonPattern(s + t)
  {
    var k :| 0 <= k < |CommonPatterns| && Contains(ToLower(s), CommonPatterns[k]);
    LoweredContainmentPersists(s, t, CommonPatterns[k]);
  }

  lemma {:induction false} LoweredContainmentPersists(s: string, t: string, pat: string)
    requires Contains(ToLower(s), pat)
    ensures Contains(ToLower(s + t), pat)
  {
    ToLowerConcat(s, t);
    ContainsExtended(ToLower(s), ToLower(t), pat);
  }

  /** The common patterns are already lower-case, so lower-casing a password cannot hide one. */
  lemma CommonPatternsAreLowercase(k: nat)
    requires k < |CommonPatterns|
    ensures ToLower(CommonPatterns[k]) == CommonPatterns[k]
  {
    var pat := CommonPatterns[k];
    forall i | 0 <= i < |pat|
      ensures !IsUpper(pat[i])
    {
    }
    ToLowerFixesNonUpper(pat);
  }

  /** Any password that ends in one of the common patterns, in any casing, carries the pattern penalty. */
  lemma {:induction false} CommonPatternSuffix(head: string, tail: string, k: nat)
    requires k < |CommonPatterns| && ToLower(tail) == CommonPatterns[k]
    ensures HasCommonPattern(head + tail)
  {
    var pat := CommonPatterns[k];
    ToLowerConcat(head, tail);
    var t := ToLower(head) + pat;
    assert t[|head|..|head| + |pat|] == pat;
    assert OccursAt(pat, t, |head|);
  }

  /** Every common pattern has three characters at least, so shorter passwords never carry the penalty. */
  lemma ShortPasswordHasNoPattern(s: string)
    requires |s| < 3
    ensures !HasCommonPattern(s)
  {
    assert forall k :: 0 <= k < |CommonPatterns| ==> |CommonPatterns[k]| >= 3;
  }

  /** A run needs three equal characters in a row: a password without any has no repetition penalty. */
  lemma NoRunWithoutThreeInARow(s: string)
    requires forall i :: 0 <= i < |s| - 2 ==> s[i] != s[i + 1] || s[i + 1] != s[i + 2]
    ensures !HasRun(s)
  {
    forall i | 0 <= i < |s| - 2
      ensures !RunAt(s, i)
    {
    }
  }

  /** Extending a password keeps every class it had and can only move it up a length tier. */
  lemma {:induction false} ExtensionKeepsClasses(s: string, t: string)
    ensures var f, g := FactsOf(s), FactsOf(s + t);
      && f.length <= g.length
      && (f.lower ==> g.lower) && (f.upper ==> g.upper) && (f.digit ==> g.digit) && (f.punct ==> g.punct)
  {
    ProfileOfConcat(s, t);
  }

  /** Extending a password keeps every penalty it had. */
  lemma {:induction false} ExtensionKeepsPenalties(s: string, t: string)
    ensures var f, g := FactsOf(s), FactsOf(s + t);
      (f.common ==> g.common) && (f.run ==> g.run)
  {
    if HasCommonPattern(s) {
      CommonPatternPersists(s, t);
    }
    if HasRun(s) {
      RunPersists(s, t);
    }
  }

  /**
   * Appending characters lowers the score only by creating a common pattern
   * or a run that was not there before; every other check is monotone.
   */
  lemma {:induction false} ExtensionLowersScoreOnlyThroughNewPenalty(s: string, t: string)
    ensures var f, g := FactsOf(s), FactsOf(s + t);
      RawScore(f) <= RawScore(g) || (!f.common && g.common) || (!f.run && g.run)
  {
    var f, g := FactsOf(s), FactsOf(s + t);
    ExtensionKeepsClasses(s, t);
    ExtensionKeepsPenalties(s, t);
    if (f.common || !g.common) && (f.run || !g.run) {
      FactsMonotone(f, g);
    }
  }

  /**
   * Appending a character of a scoring class the password lacks, without
   * creating a new pattern or run, raises the score by at least 10.
   */
  lemma {:induction false} NewClassRaisesScore(s: string, c: char)
    requires var f := FactsOf(s);
      || (IsLower(c) && !f.lower) || (IsUpper(c) && !f.upper)
      || (IsDigit(c) && !f.digit) || (IsPunctuation(c) && !f.punct)
    requires FactsOf(s + [c]).common == FactsOf(s).common
    requires FactsOf(s + [c]).run == FactsOf(s).run
    ensures RawScore(FactsOf(s)) + 10 <= RawScore(FactsOf(s + [c]))
  {
    var f, g := FactsOf(s), FactsOf(s + [c]);
    ExtensionKeepsClasses(s, [c]);
    ProfileOfConcat(s, [c]);
    assert [c][0] == c;
    FactsMonotone(f, g);
  }
}
