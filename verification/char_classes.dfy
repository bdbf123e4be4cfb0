/**
 * The character classes of `NewPythonProject/app.py`, restricted to ASCII:
 * `str.islower`, `str.isupper`, `str.isdigit`, membership in
 * `string.punctuation`, the `ord(c) > 127` test, and `str.lower`, together
 * with the four class alphabets from Python's `string` module.
 */
module CharClasses {

  /** `string.ascii_lowercase`. */
  const Lowercase: string := "abcdefghijklmnopqrstuvwxyz"

  /** `string.ascii_uppercase`. */
  const Uppercase: string := "ABCDEFGHIJKLMNOPQRSTUVWXYZ"

  /** `string.digits`. */
  const Digits: string := "0123456789"

  /** `string.punctuation`: the 32 printable ASCII symbols that are neither letters nor digits. */
  const Punctuation: string := "!\"#$%&'()*+,-./:;<=>?@[\\]^_`{|}~"

  /** `c.islower()` on ASCII; no lower-case letter falls in another class. */
  predicate IsLower(c: char): (b: bool)
    ensures b ==> !IsUpper(c) && !IsDigit(c) && !IsPunctuation(c) && !IsNonAscii(c)
  {
    'a' <= c <= 'z'
  }

  /** `c.isupper()` on ASCII; no upper-case letter is a digit, a symbol or non-ASCII. */
  predicate IsUpper(c: char): (b: bool)
    ensures b ==> !IsDigit(c) && !IsPunctuation(c) && !IsNonAscii(c)
  {
    'A' <= c <= 'Z'
  }

  /** `c.isdigit()` on ASCII; no digit is a symbol or non-ASCII. */
  predicate IsDigit(c: char): (b: bool)
    ensures b ==> !IsPunctuation(c) && !IsNonAscii(c)
  {
    '0' <= c <= '9'
  }

  /** Membership in `string.punctuation`, as the four ASCII ranges it spans: printable, not a space. */
  predicate IsPunctuation(c: char): (b: bool)
    ensures b ==> 33 <= c as int <= 126
  {
    ('!' <= c <= '/') || (':' <= c <= '@') || ('[' <= c <= '`') || ('{' <= c <= '~')
  }

  /**
   * The `ord(c) > 127` test that the entropy estimate uses as a proxy for
   * "extended" characters; it never overlaps `string.punctuation`.
   */
  predicate IsNonAscii(c: char): (b: bool)
    ensures b ==> !IsPunctuation(c)
  {
    c as int > 127
  }

  /** `c.lower()` for a single character: upper-case ASCII letters move to lower case, all else stays. */
  function LowerChar(c: char): (r: char)
    ensures !IsUpper(r)
    ensures IsUpper(c) <==> r != c
    ensures IsLower(r) <==> IsLower(c) || IsUpper(c)
  {
    if IsUpper(c) then (c as int + 32) as char else c
  }

  /** `s.lower()`: lowers every character in place, so the length never changes. */
  function ToLower(s: string): (r: string)
    ensures |r| == |s|
    ensures forall i :: 0 <= i < |s| ==> r[i] == LowerChar(s[i])
  {
    if |s| == 0 then [] else [LowerChar(s[0])] + ToLower(s[1..])
  }

  lemma PunctuationSymbolsInClass()
    ensures forall i :: 0 <= i < |Punctuation| ==> IsPunctuation(Punctuation[i])
  {
  }

  /** Lower-casing maps `string.ascii_uppercase` onto `string.ascii_lowercase`, letter by letter. */
  lemma LowerCharMapsUppercaseOntoLowercase(k: nat)
    requires k < 26
    ensures LowerChar(Uppercase[k]) == Lowercase[k]
  {
  }

  /** Lower-casing twice is lower-casing once. */
  lemma ToLowerIdempotent(s: string)
    ensures ToLower(ToLower(s)) == ToLower(s)
  {
  }

  /** `string.ascii_lowercase` holds exactly the lower-case letters. */
  lemma LowercaseMatchesClass(c: char)
    ensures c in Lowercase <==> IsLower(c)
  {
  }

  /** `string.ascii_uppercase` holds exactly the upper-case letters. */
  lemma UppercaseMatchesClass(c: char)
    ensures c in Uppercase <==> IsUpper(c)
  {
  }

  /** `string.digits` holds exactly the digits. */
  lemma DigitsMatchClass(c: char)
    ensures c in Digits <==> IsDigit(c)
  {
  }

  /** `string.punctuation` holds exactly the punctuation characters. */
  lemma PunctuationMatchesClass(c: char)
    ensures c in Punctuation <==> IsPunctuation(c)
  {
    PunctuationSymbolsInClass();
    if IsPunctuation(c) {
      var i :=
        if c <= '/' then c as int - '!' as int
        else if c <= '@' then 15 + (c as int - ':' as int)
        else if c <= '`' then 22 + (c as int - '[' as int)
        else 28 + (c as int - '{' as int);
      assert Punctuation[i] == c;
    }
  }

  /**
   * The four alphabets together are exactly the 94 printable, non-space ASCII
   * characters `'!'` .. `'~'`, and they do not overlap.
   */
  lemma AlphabetsCoverPrintableAscii(c: char)
    ensures ('!' <= c <= '~') <==> (IsLower(c) || IsUpper(c) || IsDigit(c) || IsPunctuation(c))
    ensures IsPunctuation(c) ==> !IsLower(c) && !IsUpper(c) && !IsDigit(c) && !IsNonAscii(c)
  {
  }

  /** Lower-casing works character by character, so it distributes over concatenation. */
  lemma ToLowerConcat(s: string, t: string)
    ensures ToLower(s + t) == ToLower(s) + ToLower(t)
  {
    var u := s + t;
    assert forall i :: 0 <= i < |t| ==> u[|s| + i] == t[i];
  }

  /** A string without upper-case letters is its own lower-case form. */
  lemma ToLowerFixesNonUpper(s: string)
    requires forall i :: 0 <= i < |s| ==> !IsUpper(s[i])
    ensures ToLower(s) == s
  {
  }
}
