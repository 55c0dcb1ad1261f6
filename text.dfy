/** Text helpers shared by the search engine and the argument validator. */
module Text {

  /** `s` begins with `p`, as Rust's `str::starts_with` with a string pattern. */
  predicate StartsWith(s: string, p: string)
  {
    |p| <= |s| && s[..|p|] == p
  }
}
