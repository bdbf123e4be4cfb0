/**
 * `generate_password`: the alphabet is the concatenation of the selected
 * classes in the order lowercase, uppercase, digits, punctuation; an empty
 * selection fails; otherwise `length` symbols are drawn. The draws of
 * `secrets.choice` come from an oracle: its `k`-th value, reduced modulo the
 * alphabet size, is the index chosen by the `k`-th draw.
 */
module Generator {
  import opened Wrappers
  import opened CharClasses
  import opened Entropy

  /** The arguments of `generate_password`. */
  datatype GenConfig = GenConfig(length: int, useUpper: bool, useLower: bool, useDigits: bool, useSpecial: bool)

  /** The defaults: 16 characters from all four classes. */
  const DefaultConfig: GenConfig := GenConfig(16, true, true, true, true)

  predicate AnySelected(cfg: GenConfig)
  {
    cfg.useLower || cfg.useUpper || cfg.useDigits || cfg.useSpecial
  }

  /** A character belongs to one of the selected classes. */
  predicate Selected(cfg: GenConfig, c: char)
  {
    (cfg.useLower && IsLower(c)) || (cfg.useUpper && IsUpper(c))
    || (cfg.useDigits && IsDigit(c)) || (cfg.useSpecial && IsPunctuation(c))
  }

  /** `charset`, built by concatenating the selected class alphabets. */
  function Alphabet(cfg: GenConfig): (a: string)
    ensures |a| == (if cfg.useLower then 26 else 0) + (if cfg.useUpper then 26 else 0)
      + (if cfg.useDigits then 10 else 0) + (if cfg.useSpecial then 32 else 0)
    ensures forall c :: c in a <==> Selected(cfg, c)
  {
    var a := (if cfg.useLower then Lowercase else [])
      + (if cfg.useUpper then Uppercase else [])
      + (if cfg.useDigits then Digits else [])
      + (if cfg.useSpecial then Punctuation else []);
    assert forall c :: c in a <==> Selected(cfg, c) by {
      forall c: char
        ensures c in a <==> Selected(cfg, c)
      {
        LowercaseMatchesClass(c);
        UppercaseMatchesClass(c);
        DigitsMatchClass(c);
        PunctuationMatchesClass(c);
      }
    }
    a
  }

  /** The number of iterations of `range(length)`: none for a zero or negative length. */
  function DrawCount(length: int): (n: nat)
    ensures n == 0 <==> length <= 0
    ensures length >= 0 ==> n == length
  {
    if length < 0 then 0 else length
  }

  /**
   * `generate_password(...)`: `None` when no class is selected, otherwise
   * `length` symbols of the alphabet, the `k`-th picked by `oracle(k)`.
   */
  function Generate(cfg: GenConfig, oracle: nat -> nat): (r: Option<string>)
    ensures r.None? <==> !AnySelected(cfg)
    ensures r.Some? ==> |r.value| == DrawCount(cfg.length)
    ensures r.Some? ==> forall i :: 0 <= i < |r.value| ==> Selected(cfg, r.value[i])
  {
    var a := Alphabet(cfg);
    if |a| == 0 then None else Some(Draws(a, DrawCount(cfg.length), oracle))
  }

  /** `''.join(secrets.choice(a) for _ in range(n))` with the draws supplied by `oracle`. */
  function Draws(a: string, n: nat, oracle: nat -> nat): (r: string)
    requires |a| > 0
    ensures |r| == n
    ensures forall i :: 0 <= i < n ==> r[i] in a
  {
    seq(n, k requires 0 <= k < n => a[oracle(k) % |a|])
  }

  /** Every string over a non-empty alphabet is what some sequence of draws yields. */
  lemma DrawsReachEveryString(a: string, t: string) returns (oracle: nat -> nat)
    requires |a| > 0
    requires forall i :: 0 <= i < |t| ==> t[i] in a
    ensures Draws(a, |t|, oracle) == t
  {
    oracle := (k: nat) => if k < |t| then IndexOf(a, t[k]) else 0;
    var r := Draws(a, |t|, oracle);
    forall k | 0 <= k < |t|
      ensures r[k] == t[k]
    {
      var j := IndexOf(a, t[k]);
      assert oracle(k) == j;
      assert j % |a| == j;
    }
  }

  /** The position of a character in a string that contains it. */
  function IndexOf(a: string, c: char): (k: nat)
    requires c in a
    ensures k < |a| && a[k] == c
  {
    if a[0] == c then 0 else 1 + IndexOf(a[1..], c)
  }

  /**
   * Every string of the requested length over the selected classes can come
   * out of the generator: some sequence of draws produces it.
   */
  lemma GenerateReachesEveryString(cfg: GenConfig, t: string) returns (oracle: nat -> nat)
    requires AnySelected(cfg)
    requires |t| == DrawCount(cfg.length)
    requires forall i :: 0 <= i < |t| ==> Selected(cfg, t[i])
    ensures Generate(cfg, oracle) == Some(t)
  {
    var a := Alphabet(cfg);
    assert forall i :: 0 <= i < |t| ==> t[i] in a;
    oracle := DrawsReachEveryString(a, t);
  }

  /** With every class selected the alphabet is the 94 printable, non-space ASCII characters. */
  lemma FullAlphabet(cfg: GenConfig, c: char)
    requires cfg.useLower && cfg.useUpper && cfg.useDigits && cfg.useSpecial
    ensures |Alphabet(cfg)| == 94
    ensures c in Alphabet(cfg) <==> '!' <= c <= '~'
  {
    AlphabetsCoverPrintableAscii(c);
  }

  /** A selected character reveals its class's flag and is never extended. */
  lemma SelectedClass(cfg: GenConfig, c: char)
    requires Selected(cfg, c)
    ensures IsLower(c) ==> cfg.useLower
    ensures IsUpper(c) ==> cfg.useUpper
    ensures IsDigit(c) ==> cfg.useDigits
    ensures IsPunctuation(c) ==> cfg.useSpecial
    ensures !IsNonAscii(c)
  {
    AlphabetsCoverPrintableAscii(c);
  }

  /**
   * The entropy estimate of a generated password never counts a class the
   * generator did not draw from, so its alphabet size is at most the
   * generator's.
   */
  lemma {:induction false} GeneratedCharsetWithinAlphabet(cfg: GenConfig, oracle: nat -> nat)
    requires AnySelected(cfg)
    ensures var q := Profile(Generate(cfg, oracle).value);
      && (q.lower ==> cfg.useLower) && (q.upper ==> cfg.useUpper)
      && (q.digit ==> cfg.useDigits) && (q.punct ==> cfg.useSpecial) && !q.nonAscii
    ensures CharsetSize(Generate(cfg, oracle).value) <= |Alphabet(cfg)|
  {
    var p := Generate(cfg, oracle).value;
    SelectedCharsetWithinAlphabet(cfg, p);
  }

  /** A password over the selected classes counts only selected classes. */
  lemma {:induction false} SelectedCharsetWithinAlphabet(cfg: GenConfig, p: string)
    requires forall i :: 0 <= i < |p| ==> Selected(cfg, p[i])
    ensures var q := Profile(p);
      && (q.lower ==> cfg.useLower) && (q.upper ==> cfg.useUpper)
      && (q.digit ==> cfg.useDigits) && (q.punct ==> cfg.useSpecial) && !q.nonAscii
    ensures CharsetSize(p) <= |Alphabet(cfg)|
  {
    var prof := Profile(p);
    if prof.lower {
      var i :| 0 <= i < |p| && IsLower(p[i]);
      SelectedClass(cfg, p[i]);
    }
    if prof.upper {
      var i :| 0 <= i < |p| && IsUpper(p[i]);
      SelectedClass(cfg, p[i]);
    }
    if prof.digit {
      var i :| 0 <= i < |p| && IsDigit(p[i]);
      SelectedClass(cfg, p[i]);
    }
    if prof.punct {
      var i :| 0 <= i < |p| && IsPunctuation(p[i]);
      SelectedClass(cfg, p[i]);
    }
    forall i | 0 <= i < |p|
      ensures !IsNonAscii(p[i])
    {
      SelectedClass(cfg, p[i]);
    }
  }

  /** Proof step for the lemma below: a constant oracle repeats one symbol. */
  lemma ConstantDraws(a: string, n: nat, j: nat)
    requires |a| > 0
    ensures Draws(a, n, _ => j) == seq(n, _ => a[j % |a|])
  {
  }

  /**
   * Selected classes are not guaranteed to appear: a run of identical draws
   * yields sixteen `'a'`s from the default configuration.
   */
  lemma SelectedClassMayBeAbsent()
    ensures Generate(DefaultConfig, _ => 0) == Some(seq(16, _ => 'a'))
  {
    var a := Alphabet(DefaultConfig);
    assert a == Lowercase + Uppercase + Digits + Punctuation;
    assert a[0] == 'a';
    ConstantDraws(a, 16, 0);
  }
}
