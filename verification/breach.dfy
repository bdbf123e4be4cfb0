/**
 * `check_common_breach`: the lower-cased password is looked up, as a whole,
 * in a fixed list of 25 well-known breached passwords.
 */
module Breach {
  import opened CharClasses

  /** The breach list, in source order; it is a constant and never changes. */
  const CommonBreached: seq<string> := [
    "password", "123456", "12345678", "qwerty", "abc123",
    "monkey", "1234567", "letmein", "trustno1", "dragon",
    "baseball", "iloveyou", "master", "sunshine", "ashley",
    "bailey", "passw0rd", "shadow", "123123", "654321",
    "superman", "qazwsx", "michael", "football", "password1"]

  /** `password.lower() in common_breached`: exact membership, no substring match. */
  function IsBreached(s: string): (r: bool)
    ensures r ==> 6 <= |s| <= 9
    ensures r ==> forall i :: 0 <= i < |s| ==> IsLower(LowerChar(s[i])) || IsDigit(s[i])
  {
    var t := ToLower(s);
    if t in CommonBreached then
      EntryIsLowerAlphanumeric(t);
      EntryLength(t);
      true
    else
      false
  }

  lemma EntryIsLowerAlphanumeric(t: string)
    requires t in CommonBreached
    ensures forall i :: 0 <= i < |t| ==> IsLower(t[i]) || IsDigit(t[i])
  {
    var k :| 0 <= k < |CommonBreached| && CommonBreached[k] == t;
    forall i | 0 <= i < |t|
      ensures IsLower(t[i]) || IsDigit(t[i])
    {
      EntriesAreLowerAlphanumeric(k, i);
    }
  }

  lemma EntryLength(t: string)
    requires t in CommonBreached
    ensures 6 <= |t| <= 9
  {
    var k :| 0 <= k < |CommonBreached| && CommonBreached[k] == t;
    assert forall j :: 0 <= j < |CommonBreached| ==> 6 <= |CommonBreached[j]| <= 9;
  }

  /** The list holds 25 distinct entries. */
  lemma BreachListShape()
    ensures |CommonBreached| == 25
    ensures forall i, j :: 0 <= i < j < |CommonBreached| ==> CommonBreached[i] != CommonBreached[j]
  {
  }

  /** Every entry is made of lower-case letters and digits. */
  lemma EntriesAreLowerAlphanumeric(k: nat, i: nat)
    requires k < |CommonBreached| && i < |CommonBreached[k]|
    ensures IsLower(CommonBreached[k][i]) || IsDigit(CommonBreached[k][i])
  {
  }

  /** Every entry is already lower case, so every entry is itself reported. */
  lemma EntriesAreReported(k: nat)
    requires k < |CommonBreached|
    ensures ToLower(CommonBreached[k]) == CommonBreached[k]
    ensures IsBreached(CommonBreached[k])
  {
    var e := CommonBreached[k];
    forall i | 0 <= i < |e|
      ensures !IsUpper(e[i])
    {
      EntriesAreLowerAlphanumeric(k, i);
    }
    ToLowerFixesNonUpper(e);
  }

  /** `s` lower-cases, character by character, onto `e`. */
  predicate LowersOnto(s: string, e: string)
  {
    |s| == |e| && forall i :: 0 <= i < |s| ==> LowerChar(s[i]) == e[i]
  }

  /**
   * Exactly the passwords that lower-case onto some list entry are reported:
   * a prefix, an extension or a near miss of an entry is not.
   */
  lemma {:induction false} BreachedExactlyEntries(s: string)
    ensures IsBreached(s) <==> exists k :: 0 <= k < |CommonBreached| && LowersOnto(s, CommonBreached[k])
  {
    var t := ToLower(s);
    if IsBreached(s) {
      var k :| 0 <= k < |CommonBreached| && CommonBreached[k] == t;
      assert LowersOnto(s, CommonBreached[k]);
    }
    if exists k :: 0 <= k < |CommonBreached| && LowersOnto(s, CommonBreached[k]) {
      var k :| 0 <= k < |CommonBreached| && LowersOnto(s, CommonBreached[k]);
      assert CommonBreached[k] == t;
    }
  }

  /** A password without capitals is looked up as it stands. */
  lemma LowerCaseLookedUpAsIs(s: string)
    requires forall i :: 0 <= i < |s| ==> !IsUpper(s[i])
    ensures IsBreached(s) <==> s in CommonBreached
  {
    ToLowerFixesNonUpper(s);
  }

  /** The check ignores case: passwords that lower-case alike are reported alike. */
  lemma BreachIgnoresCase(s: string, t: string)
    requires ToLower(s) == ToLower(t)
    ensures IsBreached(s) == IsBreached(t)
  {
  }
}
