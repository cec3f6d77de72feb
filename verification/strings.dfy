/** Prefix and suffix tests on strings, the two `str` queries the server's
    routing and content-type selection are built from. */
module Strings {

  /** `s.starts_with(prefix)` */
  predicate StartsWith(s: string, prefix: string) {
    |prefix| <= |s| && s[..|prefix|] == prefix
  }

  /** `s.ends_with(suffix)` */
  predicate EndsWith(s: string, suffix: string) {
    |suffix| <= |s| && s[|s| - |suffix|..] == suffix
  }

  lemma StartsWithConcat(a: string, b: string)
    ensures StartsWith(a + b, a)
  {
  }

  lemma EndsWithConcat(a: string, b: string)
    ensures EndsWith(a + b, b)
  {
  }

  /** Of two suffixes of the same string, the shorter is a suffix of the longer. */
  lemma SuffixesNest(s: string, x: string, y: string)
    requires EndsWith(s, x) && EndsWith(s, y) && |x| <= |y|
    ensures EndsWith(y, x)
  {
  }
}
