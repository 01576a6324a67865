/** The few facts about products and quotients that the proofs use. */
module Arith {

  lemma ProductOfNats(a: nat, b: nat)
    ensures a * b >= 0
  {
  }

  lemma MulOrder(n: nat, a: int, b: int)
    ensures a <= b ==> n * a <= n * b
    ensures a < b ==> n * a + n <= n * b
    decreases b - a
  {
    if a < b {
      MulOrder(n, a, b - 1);
      assert n * (b - 1) == n * b - n;
    }
  }

  lemma CancelFactor(n: nat, a: int, b: int)
    requires n > 0 && n * a <= n * b
    ensures a <= b
  {
    MulOrder(n, b, a);
  }

  lemma DivideBy(x: int, n: int, q: int, r: int)
    requires n > 0 && 0 <= r < n && x == n * q + r
    ensures x / n == q && x % n == r
  {
    var q', r' := x / n, x % n;
    assert x == n * q' + r';
    MulOrder(n, q, q');
    MulOrder(n, q', q);
  }

  lemma Quotient(x: nat, d: nat)
    requires d > 0
    ensures d * (x / d) <= x
  {
    assert x == d * (x / d) + x % d;
  }
}
