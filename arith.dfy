/** Facts about Euclidean division used by the timestamp and window proofs. */
module Arithmetic {

  lemma {:induction false} MulAtLeast(d: nat, k: nat)
    requires k >= 1
    ensures d * k >= d
  {
    if k > 1 {
      MulAtLeast(d, k - 1);
      assert d * k == d * (k - 1) + d;
    }
  }

  /** Quotient and remainder are determined by `n == d * q + r`. */
  lemma DivUnique(n: int, d: int, q: int, r: int)
    requires d > 0 && 0 <= r < d && n == d * q + r
    ensures n / d == q && n % d == r
  {
    var q', r' := n / d, n % d;
    assert d * q' + r' == d * q + r;
    if q' > q {
      MulAtLeast(d, q' - q);
      assert false;
    } else if q' < q {
      MulAtLeast(d, q - q');
      assert false;
    }
  }

  /** Dividing by `a` and then by `b` is dividing by `a * b`. */
  lemma DivDiv(n: nat, a: nat, b: nat)
    requires a > 0 && b > 0
    ensures n / a / b == n / (a * b)
  {
    var q, r2 := n / a / b, n / a % b;
    var r1 := n % a;
    assert n / a == b * q + r2;
    assert n == a * (n / a) + r1;
    assert n == (a * b) * q + (a * r2 + r1);
    assert a * r2 + r1 <= a * (b - 1) + (a - 1);
    DivUnique(n, a * b, q, a * r2 + r1);
  }
}
