/** Products and quotients of naturals, kept apart from the proofs that use them. */
module Arith {

  lemma OneMore(n: nat, k: nat)
    requires n > 0
    ensures n * k == (n - 1) * k + k
  {
  }

  lemma {:induction false} ProductGrows(a: nat, b: nat, k: nat)
    ensures a <= b ==> a * k <= b * k
    decreases b
  {
    if a < b {
      ProductGrows(a, b - 1, k);
      OneMore(b, k);
    }
  }

  /** What fits n times fits at most quotient-many times. */
  lemma FitsQuotient(n: nat, w: nat, k: nat)
    requires k > 0 && n * k <= w
    ensures n <= w / k
  {
    var q := w / k;
    assert w == k * q + w % k;
    ProductGrows(q + 1, n, k);
    OneMore(q + 1, k);
  }
}
