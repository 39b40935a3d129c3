/**
 The helpers of Go's `strings` package that the gateway relies on, over
 strings as sequences of characters.
 */
module GoStrings {

  /** `strings.HasPrefix`: `s` begins with `prefix`. */
  predicate HasPrefix(s: string, prefix: string)
  {
    |prefix| <= |s| && s[..|prefix|] == prefix
  }

  /** `strings.HasSuffix`: `s` ends with `suffix`. */
  predicate HasSuffix(s: string, suffix: string)
  {
    |suffix| <= |s| && s[|s| - |suffix|..] == suffix
  }

  /** `strings.TrimPrefix`: `s` without a leading `prefix`, or `s` itself
      when it does not begin with `prefix`. */
  function TrimPrefix(s: string, prefix: string): (r: string)
    ensures HasPrefix(s, prefix) ==> prefix + r == s
    ensures !HasPrefix(s, prefix) ==> r == s
  {
    if HasPrefix(s, prefix) then s[|prefix|..] else s
  }

  /** `strings.TrimSuffix`: `s` without a trailing `suffix`, or `s` itself
      when it does not end with `suffix`. At most one copy is removed. */
  function TrimSuffix(s: string, suffix: string): (r: string)
    ensures HasSuffix(s, suffix) ==> r + suffix == s
    ensures !HasSuffix(s, suffix) ==> r == s
  {
    if HasSuffix(s, suffix) then s[..|s| - |suffix|] else s
  }

  /** Prefixing and trimming the same prefix cancel out. */
  lemma TrimPrefixOfConcat(prefix: string, rest: string)
    ensures HasPrefix(prefix + rest, prefix)
    ensures TrimPrefix(prefix + rest, prefix) == rest
  {
  }

  /** Trimming shortens the string exactly when a non-empty prefix was there;
      this is the test `http.StripPrefix` uses to decide whether to serve. */
  lemma TrimPrefixShortens(s: string, prefix: string)
    ensures |TrimPrefix(s, prefix)| < |s| <==> prefix != [] && HasPrefix(s, prefix)
  {
  }

  /** `s` begins with `prefix` exactly when `prefix` fits in `s` and agrees
      with it character by character from the start. */
  lemma HasPrefixByCharacters(s: string, prefix: string)
    ensures HasPrefix(s, prefix) <==>
      |prefix| <= |s| && forall i :: 0 <= i < |prefix| ==> s[i] == prefix[i]
  {
  }

  /** `s` ends with `suffix` exactly when `suffix` fits in `s` and agrees
      with the last characters of `s`, one by one. */
  lemma HasSuffixByCharacters(s: string, suffix: string)
    ensures HasSuffix(s, suffix) <==>
      |suffix| <= |s| && forall i :: 0 <= i < |suffix| ==> s[|s| - |suffix| + i] == suffix[i]
  {
  }
}
