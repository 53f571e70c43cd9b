/** The lexicographic order of strings. */
module StringOrder {

  /** Character by character; a prefix comes first. */
  predicate KeyLeq(a: string, b: string) {
    if a == "" then true
    else if b == "" then false
    else if a[0] != b[0] then a[0] < b[0]
    else KeyLeq(a[1..], b[1..])
  }

  lemma {:induction false} KeyLeqTotal(a: string, b: string)
    ensures KeyLeq(a, b) || KeyLeq(b, a)
    ensures KeyLeq(a, b) && KeyLeq(b, a) ==> a == b
  {
    if a != "" && b != "" && a[0] == b[0] {
      KeyLeqTotal(a[1..], b[1..]);
      assert a == [a[0]] + a[1..] && b == [b[0]] + b[1..];
    }
  }

  lemma {:induction false} KeyLeqTransitive(a: string, b: string, c: string)
    requires KeyLeq(a, b) && KeyLeq(b, c)
    ensures KeyLeq(a, c)
  {
    if a != "" && b != "" && c != "" && a[0] == b[0] == c[0] {
      KeyLeqTransitive(a[1..], b[1..], c[1..]);
    }
  }
}
