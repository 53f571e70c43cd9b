/** Notions about sequences that several models share. */
module Sequences {

  ghost predicate Distinct<T>(s: seq<T>) {
    forall i, j :: 0 <= i < j < |s| ==> s[i] != s[j]
  }

  predicate StartsWith(s: string, p: string) {
    |p| <= |s| && s[..|p|] == p
  }

  /** The characters that stripping a string removes. */
  predicate IsBlank(c: char) {
    var n := c as int;
    9 <= n <= 13 || 28 <= n <= 32 || 8192 <= n <= 8202 || n in {133, 160, 5760, 8232, 8233, 8239, 8287, 12288}
  }

  predicate Blank(s: string) {
    forall k :: 0 <= k < |s| ==> IsBlank(s[k])
  }
}
