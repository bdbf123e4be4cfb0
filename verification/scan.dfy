/**
 * The two linear scans the checker leans on: Python's `any(p(c) for c in s)`
 * and the substring test `pat in text`.
 */
module Scan {

  /** `any(p(c) for c in s)`: some character of `s` satisfies `p`. */
  function Any(s: string, p: char -> bool): (r: bool)
    ensures r <==> exists i :: 0 <= i < |s| && p(s[i])
  {
    if |s| == 0 then false
    else if p(s[0]) then true
    else
      var rest := Any(s[1..], p);
      assert forall i :: 1 <= i < |s| ==> s[i] == s[1..][i - 1];
      rest
  }

  /** `any` only looks at which characters occur, not where or how often. */
  lemma {:induction false} AnySameCharacters(s: string, t: string, p: char -> bool)
    requires forall c :: c in s <==> c in t
    ensures Any(s, p) == Any(t, p)
  {
    if Any(s, p) {
      var i :| 0 <= i < |s| && p(s[i]);
      assert s[i] in t;
    }
    if Any(t, p) {
      var j :| 0 <= j < |t| && p(t[j]);
      assert t[j] in s;
    }
  }

  /** `any` over a concatenation is `any` over either part. */
  lemma {:induction false} AnyConcat(s: string, t: string, p: char -> bool)
    ensures Any(s + t, p) == (Any(s, p) || Any(t, p))
  {
    var u := s + t;
    if Any(s, p) {
      var i :| 0 <= i < |s| && p(s[i]);
      assert u[i] == s[i];
    }
    if Any(t, p) {
      var j :| 0 <= j < |t| && p(t[j]);
      assert u[|s| + j] == t[j];
    }
    if Any(u, p) {
      var k :| 0 <= k < |u| && p(u[k]);
      if k < |s| {
        assert u[k] == s[k];
      } else {
        assert u[k] == t[k - |s|];
      }
    }
  }

  /** `pat` occurs in `text` starting at index `i`. */
  predicate OccursAt(pat: string, text: string, i: int)
  {
    0 <= i && i + |pat| <= |text| && text[i..i + |pat|] == pat
  }

  /** Python's `pat in text` on strings: `pat` is a contiguous substring of `text`. */
  function Contains(text: string, pat: string): (r: bool)
    ensures r <==> exists i :: OccursAt(pat, text, i)
    decreases |text|
  {
    if pat <= text then
      assert OccursAt(pat, text, 0);
      true
    else if |text| == 0 then
      false
    else
      var rest := Contains(text[1..], pat);
      assert forall i :: OccursAt(pat, text[1..], i) <==> OccursAt(pat, text, i + 1);
      assert !OccursAt(pat, text, 0);
      assert forall i :: OccursAt(pat, text, i) ==> OccursAt(pat, text[1..], i - 1);
      rest
  }

  /** Containment is preserved by extending the text at the end. */
  lemma {:induction false} ContainsExtended(text: string, post: string, pat: string)
    requires Contains(text, pat)
    ensures Contains(text + post, pat)
  {
    var i :| OccursAt(pat, text, i);
    var big := text + post;
    assert big[i..i + |pat|] == text[i..i + |pat|];
    assert OccursAt(pat, big, i);
  }
}
