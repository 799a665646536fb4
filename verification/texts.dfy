/** Operations on strings that several components use. */
module Texts {

  predicate Digit(c: char) {
    '0' <= c <= '9'
  }

  /** `lastIndexOf`. */
  function LastIndexOf(s: string, c: char): (k: int)
    ensures -1 <= k < |s|
    ensures k >= 0 ==> s[k] == c
    ensures forall i | k < i < |s| :: s[i] != c
  {
    if s == "" then -1 else if s[|s| - 1] == c then |s| - 1 else LastIndexOf(s[..|s| - 1], c)
  }

  /** `slice(0, k)` at a last index: a missing one is -1, and the slice is then all but the last character. */
  function SliceTo(s: string, k: int): string
    requires -1 <= k <= |s|
  {
    if k >= 0 then s[..k] else if s == "" then "" else s[..|s| - 1]
  }

  // ---------------------------------------------------------------------------------- order of texts

  predicate NotAfter(a: string, b: string) {
    a == "" || (b != "" && (a[0] < b[0] || (a[0] == b[0] && NotAfter(a[1..], b[1..]))))
  }

  predicate Before(a: string, b: string) {
    NotAfter(a, b) && a != b
  }

  lemma {:induction false} Ordered(a: string, b: string)
    ensures NotAfter(a, b) || NotAfter(b, a)
    ensures NotAfter(a, b) && NotAfter(b, a) ==> a == b
  {
    if a != "" && b != "" && a[0] == b[0] {
      Ordered(a[1..], b[1..]);
      assert a == [a[0]] + a[1..] && b == [b[0]] + b[1..];
    }
  }

  lemma {:induction false} NotAfterTransitive(a: string, b: string, c: string)
    requires NotAfter(a, b) && NotAfter(b, c)
    ensures NotAfter(a, c)
  {
    if a != "" && a[0] == b[0] == c[0] {
      NotAfterTransitive(a[1..], b[1..], c[1..]);
    }
  }

  lemma BeforeTransitive(a: string, b: string, c: string)
    requires Before(a, b) && Before(b, c)
    ensures Before(a, c)
  {
    NotAfterTransitive(a, b, c);
    Ordered(a, b);
  }
}
