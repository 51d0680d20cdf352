/** Products and quotients. */
module Arithmetic {

  lemma MulAtLeast(k: nat, d: nat)
    requires k > 0
    ensures k * d >= d
  {
  }

  lemma MulOrder(a: int, b: int, d: nat)
    ensures a <= b ==> a * d <= b * d
  {
  }

  lemma Products(a: nat, b: nat, c: nat, d: nat)
    requires a <= c && b <= d
    ensures a * b <= c * d
  {
    MulOrder(a, c, b);
    assert c * b <= c * d;
  }

  /** Division has one answer. */
  lemma DivModUnique(x: int, q: int, d: nat, r: nat)
    requires d > 0 && x == q * d + r && r < d
    ensures x / d == q && x % d == r
  {
    var q1, r1 := x / d, x % d;
    assert x == q1 * d + r1;
    assert (q1 - q) * d == q1 * d - q * d;
    assert (q - q1) * d == q * d - q1 * d;
    if q1 > q {
      MulAtLeast(q1 - q, d);
    } else if q1 < q {
      MulAtLeast(q - q1, d);
    }
  }

  lemma MultipleMod(q: nat, d: nat)
    requires d > 0
    ensures (q * d) % d == 0
  {
    DivModUnique(q * d, q, d, 0);
  }

  /** A factor whose product exceeds another product by less than a whole factor does
      not exceed the other factor. */
  lemma Cancel(q: nat, a: int, b: int)
    requires q * a < q * b + q
    ensures a <= b
  {
    MulOrder(b + 1, a, q);
    assert (b + 1) * q == q * b + q;
    assert a * q == q * a;
  }
}
