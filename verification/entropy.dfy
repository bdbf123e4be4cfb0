/**
 * The entropy estimate of `calculate_entropy`: an effective alphabet size
 * summed from fixed per-class contributions, times the password length, in
 * bits. `math.log2` is a floating-point library call and is passed in as a
 * function; what is verified is the alphabet size and the zero case.
 */
module Entropy {
  import opened CharClasses
  import opened Scan

  /** Which of the five character classes occur somewhere in a password. */
  datatype ClassProfile = ClassProfile(lower: bool, upper: bool, digit: bool, punct: bool, nonAscii: bool)

  /** The class profile of `s`, one `any(...)` scan per class. */
  function Profile(s: string): (p: ClassProfile)
    ensures p.lower <==> exists i :: 0 <= i < |s| && IsLower(s[i])
    ensures p.upper <==> exists i :: 0 <= i < |s| && IsUpper(s[i])
    ensures p.digit <==> exists i :: 0 <= i < |s| && IsDigit(s[i])
    ensures p.punct <==> exists i :: 0 <= i < |s| && IsPunctuation(s[i])
    ensures p.nonAscii <==> exists i :: 0 <= i < |s| && IsNonAscii(s[i])
  {
    ClassProfile(Any(s, IsLower), Any(s, IsUpper), Any(s, IsDigit), Any(s, IsPunctuation), Any(s, IsNonAscii))
  }

  /** A character that falls in none of the five classes (a space, a control character). */
  predicate Unclassified(c: char)
  {
    !IsLower(c) && !IsUpper(c) && !IsDigit(c) && !IsPunctuation(c) && !IsNonAscii(c)
  }

  /** The alphabet size of a profile: 26, 26, 10, 32 and 100, each counted at most once. */
  function Weight(p: ClassProfile): (w: nat)
    ensures w <= 194
    ensures w == 0 <==> !p.lower && !p.upper && !p.digit && !p.punct && !p.nonAscii
    ensures p.nonAscii <==> w >= 100
  {
    (if p.lower then 26 else 0) + (if p.upper then 26 else 0) + (if p.digit then 10 else 0)
    + (if p.punct then 32 else 0) + (if p.nonAscii then 100 else 0)
  }

  /** `charset_size` in `calculate_entropy`. */
  function CharsetSize(s: string): (n: nat)
    ensures n == (if exists i :: 0 <= i < |s| && IsLower(s[i]) then 26 else 0)
      + (if exists i :: 0 <= i < |s| && IsUpper(s[i]) then 26 else 0)
      + (if exists i :: 0 <= i < |s| && IsDigit(s[i]) then 10 else 0)
      + (if exists i :: 0 <= i < |s| && IsPunctuation(s[i]) then 32 else 0)
      + (if exists i :: 0 <= i < |s| && IsNonAscii(s[i]) then 100 else 0)
    ensures n <= 194
    ensures n == 0 <==> forall i :: 0 <= i < |s| ==> Unclassified(s[i])
    ensures |s| == 0 ==> n == 0
  {
    Weight(Profile(s))
  }

  /**
   * `calculate_entropy(s)`: zero when no class is present, without consulting
   * `log2` at all; otherwise `len(s) * log2(charset_size)`.
   */
  function EntropyBits(s: string, log2: nat -> real): (bits: real)
    ensures CharsetSize(s) == 0 ==> bits == 0.0
    ensures |s| == 0 ==> bits == 0.0
  {
    Bits(|s|, CharsetSize(s), log2)
  }

  /** `length * log2(size)` bits, or none for an empty alphabet. */
  function Bits(length: nat, size: nat, log2: nat -> real): (b: real)
    ensures size == 0 || length == 0 ==> b == 0.0
    ensures 0.0 <= log2(size) ==> 0.0 <= b
  {
    if size == 0 then 0.0 else length as real * log2(size)
  }

  /** The profile, and hence the alphabet size, depends on which characters occur, not on how often. */
  lemma {:induction false} ProfileDependsOnlyOnCharacters(s: string, t: string)
    requires forall c :: c in s <==> c in t
    ensures Profile(s) == Profile(t)
    ensures CharsetSize(s) == CharsetSize(t)
  {
    AnySameCharacters(s, t, IsLower);
    AnySameCharacters(s, t, IsUpper);
    AnySameCharacters(s, t, IsDigit);
    AnySameCharacters(s, t, IsPunctuation);
    AnySameCharacters(s, t, IsNonAscii);
  }

  /** The profile of a concatenation joins the profiles of its parts. */
  lemma {:induction false} ProfileOfConcat(s: string, t: string)
    ensures var p, q, r := Profile(s), Profile(t), Profile(s + t);
      && r.lower == (p.lower || q.lower) && r.upper == (p.upper || q.upper)
      && r.digit == (p.digit || q.digit) && r.punct == (p.punct || q.punct)
      && r.nonAscii == (p.nonAscii || q.nonAscii)
  {
    AnyConcat(s, t, IsLower);
    AnyConcat(s, t, IsUpper);
    AnyConcat(s, t, IsDigit);
    AnyConcat(s, t, IsPunctuation);
    AnyConcat(s, t, IsNonAscii);
  }

  /** Adding characters never shrinks the alphabet size. */
  lemma {:induction false} CharsetSizeGrowsWithText(s: string, t: string)
    ensures CharsetSize(s) <= CharsetSize(s + t)
    ensures CharsetSize(t) <= CharsetSize(s + t)
  {
    ProfileOfConcat(s, t);
    var p, q, r := Profile(s), Profile(t), Profile(s + t);
    WeightMonotone(p, r);
    WeightMonotone(q, r);
  }

  /** A profile with more classes present weighs at least as much. */
  lemma WeightMonotone(p: ClassProfile, q: ClassProfile)
    requires p.lower ==> q.lower
    requires p.upper ==> q.upper
    requires p.digit ==> q.digit
    requires p.punct ==> q.punct
    requires p.nonAscii ==> q.nonAscii
    ensures Weight(p) <= Weight(q)
  {
  }

  /**
   * With a logarithm that is non-negative and monotone from 1 upwards, as
   * `math.log2` is, appending characters never lowers the entropy estimate.
   */
  lemma {:induction false} EntropyGrowsWithText(s: string, t: string, log2: nat -> real)
    requires forall m: nat, n: nat :: 1 <= m <= n ==> 0.0 <= log2(m) <= log2(n)
    ensures EntropyBits(s, log2) <= EntropyBits(s + t, log2)
  {
    CharsetSizeGrowsWithText(s, t);
    BitsGrow(|s|, |s + t|, CharsetSize(s), CharsetSize(s + t), log2);
  }

  /** The bit count grows with both the length and the alphabet size. */
  lemma BitsGrow(k: nat, l: nat, m: nat, n: nat, log2: nat -> real)
    requires forall m: nat, n: nat :: 1 <= m <= n ==> 0.0 <= log2(m) <= log2(n)
    requires k <= l && m <= n
    ensures Bits(k, m, log2) <= Bits(l, n, log2)
  {
    if m > 0 {
      ProductGrows(k as real, l as real, log2(m), log2(n));
    } else if n > 0 {
      ProductGrows(0.0, l as real, 0.0, log2(n));
    }
  }

  lemma ProductGrows(a: real, b: real, x: real, y: real)
    requires 0.0 <= a <= b && 0.0 <= x <= y
    ensures a * x <= b * y
  {
    assert a * x <= a * y;
    assert a * y <= b * y;
  }

  /** Letters and digits alone never count as punctuation or as extended characters. */
  lemma AlphanumericProfile(s: string)
    requires forall i :: 0 <= i < |s| ==> IsLower(s[i]) || IsUpper(s[i]) || IsDigit(s[i])
    ensures !Profile(s).punct && !Profile(s).nonAscii
  {
    forall i | 0 <= i < |s|
      ensures !IsPunctuation(s[i]) && !IsNonAscii(s[i])
    {
      AlphabetsCoverPrintableAscii(s[i]);
    }
  }

  /** With the entropy rule's two-way guarantee: a size of 0 is exactly a text of unclassified characters. */
  lemma OnlyUnclassifiedGivesZeroEntropy(s: string, log2: nat -> real)
    requires forall i :: 0 <= i < |s| ==> Unclassified(s[i])
    ensures EntropyBits(s, log2) == 0.0
  {
  }
}
