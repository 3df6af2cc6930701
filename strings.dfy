/**
 * The string predicates that stand in for the configuration's regular
 * expressions: `$`-anchored tests become suffix tests, unanchored ones
 * become substring tests, and the `i` flag becomes ASCII case folding.
 */
module Strings {

  /** Upper-cases an ASCII letter and leaves every other character alone.
      A non-Unicode JavaScript regular expression with the `i` flag never
      folds a non-ASCII character onto an ASCII one, so against a pattern
      made of ASCII characters this is exactly its case-insensitive test. */
  function AsciiUpper(c: char): char
  {
    if 'a' <= c <= 'z' then (c as int - 32) as char else c
  }

  /** `/^prefix/i.test(s)` */
  predicate StartsWithIgnoreCase(s: string, prefix: string)
  {
    |prefix| <= |s| && forall i :: 0 <= i < |prefix| ==> AsciiUpper(s[i]) == AsciiUpper(prefix[i])
  }

  /** `/suffix$/.test(s)` */
  predicate EndsWith(s: string, suffix: string)
  {
    |suffix| <= |s| && s[|s| - |suffix|..] == suffix
  }

  /** The fragment occurs in `s` starting at position `i`. */
  predicate OccursAt(s: string, fragment: string, i: int)
  {
    0 <= i <= |s| - |fragment| && s[i..i + |fragment|] == fragment
  }

  /** `/fragment/.test(s)`: the fragment occurs anywhere in `s`. */
  predicate Contains(s: string, fragment: string)
  {
    exists i | 0 <= i <= |s| - |fragment| :: OccursAt(s, fragment, i)
  }

  lemma ContainsAt(s: string, fragment: string, i: nat)
    requires OccursAt(s, fragment, i)
    ensures Contains(s, fragment)
  {
  }

  /** A fragment is absent when no position shows its first two characters. */
  lemma NotContainsByPairs(s: string, fragment: string)
    requires |fragment| >= 2
    requires forall i :: 0 <= i <= |s| - |fragment| ==> s[i] != fragment[0] || s[i + 1] != fragment[1]
    ensures !Contains(s, fragment)
  {
    forall i | 0 <= i <= |s| - |fragment| ensures !OccursAt(s, fragment, i) {
      var window := s[i..i + |fragment|];
      assert window[0] == s[i] && window[1] == s[i + 1];
    }
  }

  lemma EndsWithLast(s: string, suffix: string)
    requires suffix != [] && EndsWith(s, suffix)
    ensures s[|s| - 1] == suffix[|suffix| - 1]
  {
  }
}
