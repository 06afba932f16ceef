/** The part of `java.lang.String.toUpperCase()` that matters for parsing
    enum constant names: the ASCII letters `a`..`z` are mapped to `A`..`Z`
    and every other character is left as it is. */
module JavaStrings {

  /** The ASCII alphabet in both cases; `UPPER[i]` is the capital of `LOWER[i]`. */
  const LOWER: string := "abcdefghijklmnopqrstuvwxyz"
  const UPPER: string := "ABCDEFGHIJKLMNOPQRSTUVWXYZ"

  predicate IsLower(c: char) {
    'a' <= c <= 'z'
  }

  /** `Character.toUpperCase` on one character: the result is never a
      lower-case letter, and other characters are kept. */
  function UpperChar(c: char): (u: char)
    ensures !IsLower(c) ==> u == c
    ensures !IsLower(u)
  {
    if IsLower(c) then (c as int - 32) as char else c
  }

  /** Each letter of the lower-case alphabet becomes the capital at the same
      place of the upper-case alphabet. */
  lemma UpperCharTable(i: nat)
    requires i < |LOWER|
    ensures IsLower(LOWER[i])
    ensures UpperChar(LOWER[i]) == UPPER[i]
  {
  }

  /** `s.toUpperCase()`, character by character. */
  function ToUpperCase(s: string): (r: string)
    ensures |r| == |s|
  {
    if s == [] then [] else [UpperChar(s[0])] + ToUpperCase(s[1..])
  }

  /** Each character is upper-cased on its own. */
  lemma {:induction false} ToUpperCaseAt(s: string, i: nat)
    requires i < |s|
    ensures ToUpperCase(s)[i] == UpperChar(s[i])
  {
    if i > 0 {
      ToUpperCaseAt(s[1..], i - 1);
    }
  }

  /** A string with no lower-case letter is its own upper case. */
  lemma UpperCaseOfUpper(s: string)
    requires forall i :: 0 <= i < |s| ==> !IsLower(s[i])
    ensures ToUpperCase(s) == s
  {
    forall i | 0 <= i < |s| ensures ToUpperCase(s)[i] == s[i] {
      ToUpperCaseAt(s, i);
    }
  }
}
