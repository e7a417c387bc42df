/** The functions of Go's `strings` package that the models use. */
module GoStrings {

  /** `strings.HasPrefix(s, prefix)`: `s` is at least as long as `prefix` and begins with it. */
  predicate HasPrefix(s: string, prefix: string)
  {
    |prefix| <= |s| && s[..|prefix|] == prefix
  }

  /** `strings.HasSuffix(s, suffix)`: `s` is at least as long as `suffix` and ends with it. */
  predicate HasSuffix(s: string, suffix: string)
  {
    |suffix| <= |s| && s[|s| - |suffix|..] == suffix
  }

  /**
   * `strings.TrimPrefix(s, prefix)`: drops one leading occurrence of `prefix`,
   * and returns `s` unchanged when it does not begin with `prefix`.
   */
  function TrimPrefix(s: string, prefix: string): (r: string)
    ensures HasPrefix(s, prefix) ==> prefix + r == s
    ensures !HasPrefix(s, prefix) ==> r == s
  {
    if HasPrefix(s, prefix) then s[|prefix|..] else s
  }

  /** Trimming a prefix that was just prepended gives back the original suffix. */
  lemma TrimPrefixOfConcat(prefix: string, rest: string)
    ensures HasPrefix(prefix + rest, prefix)
    ensures TrimPrefix(prefix + rest, prefix) == rest
  {
  }

  /** TrimPrefix removes the prefix once only: a doubled prefix keeps its second copy. */
  lemma TrimPrefixOnce(prefix: string, rest: string)
    ensures TrimPrefix(prefix + prefix + rest, prefix) == prefix + rest
  {
  }
}
