/** Facts about Euclidean division used by the register-field layouts. */
module Arith {

  /** A quotient and remainder that rebuild `x` are the ones `/` and `%` give. */
  lemma DivModUnique(x: int, d: int, q: int, r: int)
    requires d > 0 && 0 <= r < d && x == q * d + r
    ensures x / d == q && x % d == r
  {
    var k := q - x / d;
    assert k * d == x % d - r;
  }

  /** Dividing by `a` and then by `b` is dividing by `a * b`; the remainders nest. */
  lemma DivDiv(x: nat, a: nat, b: nat)
    requires a > 0 && b > 0
    ensures x / a / b == x / (a * b)
    ensures x % (a * b) == (x / a % b) * a + x % a
  {
    var q := x / a / b;
    var r := (x / a % b) * a + x % a;
    assert x / a == q * b + x / a % b;
    assert x == (x / a) * a + x % a;
    assert x == q * (a * b) + r by {
      assert (x / a) * a == (q * b + x / a % b) * a;
    }
    assert r < a * b by {
      assert x / a % b <= b - 1;
      assert (x / a % b) * a <= (b - 1) * a;
    }
    DivModUnique(x, a * b, q, r);
  }
}
