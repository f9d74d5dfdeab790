/** Division by a positive number, one step at a time. */
module Quotients {

  lemma MultipleIsLarge(k: int, d: nat)
    requires k >= 1
    ensures k * d >= d
  {
  }

  /** Quotient and remainder are determined by what they mean. */
  lemma DivUnique(n: nat, d: nat, q: int, r: nat)
    requires d > 0 && n == q * d + r && r < d
    ensures n / d == q && n % d == r
  {
    var p, s := n / d, n % d;
    assert n == p * d + s && s < d;
    assert (q - p) * d == q * d - p * d == s - r;
    assert (p - q) * d == p * d - q * d == r - s;
    if q - p >= 1 {
      MultipleIsLarge(q - p, d);
      assert false;
    } else if p - q >= 1 {
      MultipleIsLarge(p - q, d);
      assert false;
    }
  }

  lemma QuotientSteps(n: nat, d: nat)
    requires d > 0
    ensures (n + 1) / d == n / d + (if (n + 1) % d == 0 then 1 else 0)
  {
    var q, r := n / d, n % d;
    assert n == q * d + r;
    if r + 1 == d {
      assert n + 1 == (q + 1) * d + 0;
      DivUnique(n + 1, d, q + 1, 0);
    } else {
      DivUnique(n + 1, d, q, r + 1);
    }
  }
}
