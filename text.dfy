/** The two string tests the instruction code relies on. */
module Text {

  /** `s.StartsWith(prefix)`, ordinal comparison. */
  predicate StartsWith(s: string, prefix: string) {
    |prefix| <= |s| && s[..|prefix|] == prefix
  }

  /** `s.Contains(t)`, ordinal comparison. */
  predicate Contains(s: string, t: string) {
    exists i :: 0 <= i <= |s| - |t| && StartsWith(s[i..], t)
  }

  /** A string without an opening brace directly followed by `0` does not contain "{0}". */
  lemma NoPlaceholder(s: string)
    requires forall i :: 0 <= i < |s| - 1 ==> s[i] != '{' || s[i + 1] != '0'
    ensures !Contains(s, "{0}")
  {
    forall i | 0 <= i <= |s| - 3
      ensures !StartsWith(s[i..], "{0}")
    {
      assert s[i..][..3][0] == s[i] && s[i..][..3][1] == s[i + 1];
    }
  }

  /** A string with "{0}" at index `i` contains it. */
  lemma PlaceholderAt(s: string, i: nat)
    requires i + 3 <= |s| && s[i..i + 3] == "{0}"
    ensures Contains(s, "{0}")
  {
    assert StartsWith(s[i..], "{0}");
  }
}
