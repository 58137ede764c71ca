/** Ordinal, case-insensitive string equality (`StringComparison.OrdinalIgnoreCase`),
    restricted to the ASCII letters: two strings are equal when they have the same length
    and agree character by character after upper-casing. */
module OrdinalIgnoreCase {

  /** The ASCII alphabet in both cases, position for position. */
  const LowerAlphabet: string := "abcdefghijklmnopqrstuvwxyz"
  const UpperAlphabet: string := "ABCDEFGHIJKLMNOPQRSTUVWXYZ"

  /** Upper-case mapping of one character: `a`..`z` become `A`..`Z`, every other
      character is its own upper case. */
  function ToUpper(c: char): char
  {
    if 'a' <= c <= 'z' then (c as int - 'a' as int + 'A' as int) as char else c
  }

  /** Upper-cases every character of a string. */
  function UpperString(s: string): (u: string)
    ensures |u| == |s|
    ensures forall i :: 0 <= i < |s| ==> u[i] == ToUpper(s[i])
  {
    if s == [] then [] else [ToUpper(s[0])] + UpperString(s[1..])
  }

  /** The alphabets are the letters in code-point order. */
  lemma AlphabetsAreInOrder()
    ensures |LowerAlphabet| == 26 && |UpperAlphabet| == 26
    ensures forall i :: 0 <= i < 26 ==> LowerAlphabet[i] as int == 'a' as int + i
    ensures forall i :: 0 <= i < 26 ==> UpperAlphabet[i] as int == 'A' as int + i
  {
  }

  /** `ToUpper` maps a lower-case letter to the upper-case letter at the same place of
      the alphabet and leaves every other character as it is. */
  lemma ToUpperFollowsAlphabet(c: char)
    ensures forall i :: 0 <= i < 26 && c == LowerAlphabet[i] ==> ToUpper(c) == UpperAlphabet[i]
    ensures c !in LowerAlphabet ==> ToUpper(c) == c
  {
    AlphabetsAreInOrder();
    if 'a' <= c <= 'z' {
      assert LowerAlphabet[c as int - 'a' as int] == c;
    }
  }

  /** Lower-case mapping of one character, the inverse of `ToUpper` on letters. */
  function ToLower(c: char): (l: char)
    ensures 'A' <= c <= 'Z' ==> 'a' <= l <= 'z' && ToUpper(l) == c
    ensures !('A' <= c <= 'Z') ==> l == c
  {
    if 'A' <= c <= 'Z' then (c as int - 'A' as int + 'a' as int) as char else c
  }

  /** Lower-cases every character of a string. */
  function LowerString(s: string): (l: string)
    ensures |l| == |s|
    ensures forall i :: 0 <= i < |s| ==> l[i] == ToLower(s[i])
  {
    if s == [] then [] else [ToLower(s[0])] + LowerString(s[1..])
  }

  /** Two characters have the same upper case exactly when they have the same lower case. */
  lemma SameUpperIffSameLower(c: char, d: char)
    ensures ToUpper(c) == ToUpper(d) <==> ToLower(c) == ToLower(d)
  {
  }

  /** The comparison itself: equal lengths, and the characters at each position have
      the same upper case. */
  predicate EqualsIgnoreCase(a: string, b: string): (eq: bool)
    ensures a == b ==> eq
    ensures eq ==> |a| == |b|
  {
    |a| == |b| && forall i :: 0 <= i < |a| ==> ToUpper(a[i]) == ToUpper(b[i])
  }

  /** The comparison agrees with comparing the upper-cased strings. */
  lemma EqualsIgnoreCaseIsUpperEquality(a: string, b: string)
    ensures EqualsIgnoreCase(a, b) <==> UpperString(a) == UpperString(b)
  {
    if UpperString(a) == UpperString(b) {
      forall i | 0 <= i < |a| ensures ToUpper(a[i]) == ToUpper(b[i]) {
        assert UpperString(a)[i] == UpperString(b)[i];
      }
    }
  }

  /** True when no character of `s` is an upper-case letter. */
  predicate HasNoUpperCase(s: string)
  {
    forall i :: 0 <= i < |s| ==> !('A' <= s[i] <= 'Z')
  }

  /** Comparing with a string that has no upper-case letters is comparing the
      lower-cased string with it. */
  lemma EqualsIgnoreCaseLowerCase(a: string, b: string)
    requires HasNoUpperCase(b)
    ensures EqualsIgnoreCase(a, b) <==> LowerString(a) == b
  {
    if |a| == |b| {
      forall i | 0 <= i < |a|
        ensures ToUpper(a[i]) == ToUpper(b[i]) <==> LowerString(a)[i] == b[i]
      {
        SameUpperIffSameLower(a[i], b[i]);
      }
      if LowerString(a) != b {
        var k :| 0 <= k < |a| && LowerString(a)[k] != b[k];
      }
    }
  }

  /** Equal strings compare equal, and the comparison is symmetric and transitive. */
  lemma EqualsIgnoreCaseIsEquivalence(a: string, b: string, c: string)
    ensures EqualsIgnoreCase(a, a)
    ensures EqualsIgnoreCase(a, b) ==> EqualsIgnoreCase(b, a)
    ensures EqualsIgnoreCase(a, b) && EqualsIgnoreCase(b, c) ==> EqualsIgnoreCase(a, c)
  {
  }
}
