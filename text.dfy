/** The two string primitives the fallback responder relies on: lower-casing
    (`str.lower`) and substring search (`kw in text`). */
module Text {

  predicate IsUpper(c: char) { 'A' <= c <= 'Z' }

  /** Lower-cases one ASCII letter; every other character is kept. */
  function LowerChar(c: char): char
  {
    if IsUpper(c) then (c as int + 32) as char else c
  }

  /** `s.lower()` restricted to ASCII letters, character by character. */
  function Lower(s: string): (r: string)
    ensures |r| == |s|
  {
    seq(|s|, i requires 0 <= i < |s| => LowerChar(s[i]))
  }

  /** Lower-casing replaces every upper-case letter by its lower-case
      partner, keeps every other character, and so leaves no upper-case
      letter. */
  lemma LowerSpec(s: string)
    ensures forall i :: 0 <= i < |s| && IsUpper(s[i]) ==>
      'a' <= Lower(s)[i] <= 'z' && Lower(s)[i] as int - 'a' as int == s[i] as int - 'A' as int
    ensures forall i :: 0 <= i < |s| && !IsUpper(s[i]) ==> Lower(s)[i] == s[i]
    ensures forall i :: 0 <= i < |s| ==> !IsUpper(Lower(s)[i])
  {
  }

  /** Lower-casing twice is lower-casing once. */
  lemma LowerIdempotent(s: string)
    ensures Lower(Lower(s)) == Lower(s)
  {
  }

  /** `kw` occurs in `text` starting at position `i`. */
  predicate OccursAt(text: string, kw: string, i: nat)
  {
    i + |kw| <= |text| && text[i..i + |kw|] == kw
  }

  /** Python's `kw in text`: `kw` occurs somewhere in `text`. The empty
      keyword occurs in every text, and a keyword that occurs is no longer
      than the text. */
  function Contains(text: string, kw: string): (found: bool)
    ensures |kw| == 0 ==> found
    ensures found ==> |kw| <= |text|
  {
    assert OccursAt(text, kw, 0) <== |kw| == 0;
    exists i: nat | i <= |text| :: OccursAt(text, kw, i)
  }

  /** A keyword whose first character does not appear in the text does not
      occur in it. */
  lemma AbsentInitialRulesOut(text: string, kw: string)
    requires |kw| > 0 && kw[0] !in text
    ensures !Contains(text, kw)
  {
    forall i: nat | OccursAt(text, kw, i)
      ensures text[i] in text
    {
    }
  }
}
