/** Worked examples of the checker on concrete passwords. */
module Scenarios {
  import opened CharClasses
  import opened Entropy
  import opened Scorer
  import opened Breach
  import opened CrackTime

  /** The breach check ignores case but matches whole passwords only. */
  lemma BreachExamples()
    ensures IsBreached("Password") && IsBreached("PASSWORD")
  {
    EntriesAreReported(0);
    BreachIgnoresCase("Password", CommonBreached[0]);
    BreachIgnoresCase("PASSWORD", CommonBreached[0]);
  }

  /** A breached password only inside a longer one, or a long random one, is not reported. */
  lemma NotBreachedExamples()
    ensures !IsBreached("mypassword")
    ensures !IsBreached("Xk9#mQ2!vL")
  {
  }

  /** An extension of a list entry is not reported: the lookup is exact, not a prefix match. */
  lemma ExtendedEntryNotBreached()
    ensures !IsBreached("dragon1")
  {
    NotListed("dragon1");
    LowerCaseLookedUpAsIs("dragon1");
  }

  /** A prefix of a list entry is not reported either. */
  lemma TruncatedEntryNotBreached()
    ensures !IsBreached("passwor")
  {
    NotListed("passwor");
    LowerCaseLookedUpAsIs("passwor");
  }

  /** Proof step for the two lemmas above: neither near miss is a list entry. */
  lemma NotListed(s: string)
    requires s == "dragon1" || s == "passwor"
    ensures s !in CommonBreached
  {
  }

  /** The regular expression's `.` skips newlines: three newlines are no run, three letters are. */
  lemma RunExamples()
    ensures HasRun("aaa") && !HasRun("\n\n\n")
    ensures HasRun("xaaaay")
  {
    assert RunAt("xaaaay", 1);
  }

  /**
   * Proof device for the examples below, not a property of the checker: the
   * profile of an ASCII password, from one witness per class present and
   * the absence of every other class. Stating it once over any string keeps
   * each literal example's proof small.
   */
  lemma ProfileByWitnesses(s: string, p: ClassProfile, wl: nat, wu: nat, wd: nat, wp: nat)
    requires !p.nonAscii && forall i :: 0 <= i < |s| ==> s[i] as int < 128
    requires forall i :: 0 <= i < |s| ==>
      && (IsLower(s[i]) ==> p.lower) && (IsUpper(s[i]) ==> p.upper)
      && (IsDigit(s[i]) ==> p.digit) && (IsPunctuation(s[i]) ==> p.punct)
    requires p.lower ==> wl < |s| && IsLower(s[wl])
    requires p.upper ==> wu < |s| && IsUpper(s[wu])
    requires p.digit ==> wd < |s| && IsDigit(s[wd])
    requires p.punct ==> wp < |s| && IsPunctuation(s[wp])
    ensures Profile(s) == p
  {
  }

  /** Proof device, like the one above: the facts of a password, assembled from its profile and its two penalty checks. */
  lemma FactsByParts(s: string, p: ClassProfile, common: bool, run: bool)
    requires Profile(s) == p && HasCommonPattern(s) == common && HasRun(s) == run
    ensures FactsOf(s) == Facts(|s|, p.lower, p.upper, p.digit, p.punct, common, run)
  {
  }

  lemma FactsOfAb()
    ensures FactsOf("ab") == Facts(2, true, false, false, false, false, false)
  {
    var p := ClassProfile(true, false, false, false, false);
    ProfileByWitnesses("ab", p, 0, 0, 0, 0);
    ShortPasswordHasNoPattern("ab");
    FactsByParts("ab", p, false, false);
  }

  lemma PatternInAbUpperC()
    ensures HasCommonPattern("abC")
  {
    assert ToLower("abC") == CommonPatterns[1];
    CommonPatternSuffix("", "abC", 1);
    assert "" + "abC" == "abC";
  }

  lemma NoRunInAbUpperC()
    ensures !HasRun("abC")
  {
    NoRunWithoutThreeInARow("abC");
  }

  lemma FactsOfAbUpperC()
    ensures FactsOf("abC") == Facts(3, true, true, false, false, true, false)
  {
    var p := ClassProfile(true, true, false, false, false);
    ProfileByWitnesses("abC", p, 0, 2, 0, 0);
    PatternInAbUpperC();
    NoRunInAbUpperC();
    FactsByParts("abC", p, true, false);
  }

  /** "ab" scores 30; appending the new class `'C'` creates "abc" and drops the score to 20. */
  lemma NewClassCanLowerScore()
    ensures RawScore(FactsOf("ab")) == 30
    ensures RawScore(FactsOf("abC")) == 20
  {
    ScoreOfAb();
    ScoreOfAbUpperC();
  }

  lemma ScoreOfAb()
    ensures RawScore(FactsOf("ab")) == 30
  {
    FactsOfAb();
    RawScoreMatchesTable(Facts(2, true, false, false, false, false, false));
  }

  lemma ScoreOfAbUpperC()
    ensures RawScore(FactsOf("abC")) == 20
  {
    FactsOfAbUpperC();
    RawScoreMatchesTable(Facts(3, true, true, false, false, true, false));
  }

  lemma ProfileOfPAtSsw0rd123()
    ensures Profile("P@ssw0rd123") == ClassProfile(true, true, true, true, false)
  {
    ProfileByWitnesses("P@ssw0rd123", ClassProfile(true, true, true, true, false), 2, 0, 5, 1);
  }

  lemma PatternInPAtSsw0rd123()
    ensures HasCommonPattern("P@ssw0rd123")
  {
    CommonPatternsAreLowercase(0);
    CommonPatternSuffix("P@ssw0rd", "123", 0);
    assert "P@ssw0rd" + "123" == "P@ssw0rd123";
  }

  lemma NoRunInPAtSsw0rd123()
    ensures !HasRun("P@ssw0rd123")
  {
    var s := "P@ssw0rd123";
    forall i | 0 <= i < |s| - 2
      ensures s[i] != s[i + 1] || s[i + 1] != s[i + 2]
    {
    }
    NoRunWithoutThreeInARow(s);
  }

  lemma FactsOfPAtSsw0rd123()
    ensures FactsOf("P@ssw0rd123") == Facts(11, true, true, true, true, true, false)
  {
    ProfileOfPAtSsw0rd123();
    PatternInPAtSsw0rd123();
    NoRunInPAtSsw0rd123();
    FactsByParts("P@ssw0rd123", ClassProfile(true, true, true, true, false), true, false);
  }
  /**
   * "P@ssw0rd123": all four classes, 94 symbols for the entropy estimate,
   * the 8-11 length tier and the "123" penalty: 60 points, Medium.
   */
  lemma PAtSsw0rd123Example(log2: nat -> real, pow2: real -> real)
    ensures CharsetSize("P@ssw0rd123") == 94
    ensures Analyze("P@ssw0rd123", log2, pow2).value.score == 60
    ensures Analyze("P@ssw0rd123", log2, pow2).value.strength == Medium
  {
    ProfileOfPAtSsw0rd123();
    FactsOfPAtSsw0rd123();
    RawScoreMatchesTable(Facts(11, true, true, true, true, true, false));
  }

  lemma PatternInAaaa1111()
    ensures HasCommonPattern("aaaa1111")
  {
    CommonPatternsAreLowercase(4);
    CommonPatternSuffix("aaaa1", "111", 4);
    assert "aaaa1" + "111" == "aaaa1111";
  }

  lemma FactsOfAaaa1111()
    ensures FactsOf("aaaa1111") == Facts(8, true, false, true, false, true, true)
  {
    var s := "aaaa1111";
    var p := ClassProfile(true, false, true, false, false);
    ProfileByWitnesses(s, p, 0, 0, 4, 0);
    PatternInAaaa1111();
    assert RunAt(s, 0);
    FactsByParts(s, p, true, true);
  }

  /** "aaaa1111": 8-11 length tier, both a "111" pattern and a run: 20 points, Weak. */
  lemma Aaaa1111Example(log2: nat -> real, pow2: real -> real)
    ensures Analyze("aaaa1111", log2, pow2).value.score == 20
    ensures Analyze("aaaa1111", log2, pow2).value.strength == Weak
    ensures Analyze("aaaa1111", log2, pow2).value.criteria.length
  {
    FactsOfAaaa1111();
    RawScoreMatchesTable(Facts(8, true, false, true, false, true, true));
  }

  lemma FactsOf111()
    ensures FactsOf("111") == Facts(3, false, false, true, false, true, true)
  {
    var s := "111";
    var p := ClassProfile(false, false, true, false, false);
    ProfileByWitnesses(s, p, 0, 0, 0, 0);
    CommonPatternsAreLowercase(4);
    CommonPatternSuffix("", "111", 4);
    assert "" + "111" == s;
    assert RunAt(s, 0);
    FactsByParts(s, p, true, true);
  }

  /** "111": ten points for the digits, minus both penalties: -5, which the returned score clamps to 0. */
  lemma OneOneOneExample(log2: nat -> real, pow2: real -> real)
    ensures RawScore(FactsOf("111")) == -5
    ensures Analyze("111", log2, pow2).value.score == 0
    ensures Analyze("111", log2, pow2).value.strength == Weak
  {
    FactsOf111();
    RawScoreMatchesTable(Facts(3, false, false, true, false, true, true));
  }

  lemma ProfileOfRepeatedA(n: nat)
    requires n > 0
    ensures CharsetSize(seq(n, _ => 'a')) == 26
  {
    var s := seq(n, _ => 'a');
    ProfileByWitnesses(s, ClassProfile(true, false, false, false, false), 0, 0, 0, 0);
  }

  /**
   * 218 lower-case letters carry 218 * log2(26), about 1024.7 bits, so
   * `2 ** entropy` overflows and the check as written raises instead of
   * answering; the corrected estimate answers "Millions of years".
   */
  lemma LongPasswordOverflowsAsWritten(log2: nat -> real, pow2: real -> real)
    requires log2(26) >= 4.7
    ensures EstimateCrackTimeAsWritten(EntropyBits(seq(218, _ => 'a'), log2), pow2) == OverflowError
    ensures EstimateCrackTime(EntropyBits(seq(218, _ => 'a'), log2), pow2) == MillionsOfYears
    ensures AnalyzeAsWritten(seq(218, _ => 'a'), log2, pow2) == Raised
    ensures Analyze(seq(218, _ => 'a'), log2, pow2).value.crackTime == MillionsOfYears
  {
    ProfileOfRepeatedA(218);
  }
}
