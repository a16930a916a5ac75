/** Division and remainder by a positive divisor, in the few forms the models need. */
module Arithmetic {

  /** A quotient and a remainder are determined by the equation they solve. */
  lemma {:induction false} DivModIs(x: nat, d: nat, q: nat, r: nat)
    requires d > 0 && r < d && x == q * d + r
    ensures x / d == q && x % d == r
  {
    assert x == (x / d) * d + x % d;
    NoGap(x / d - q, d, r - x % d);
  }

  lemma {:induction false} NoGap(k: int, d: int, x: int)
    requires d > 0 && k * d == x && -d < x < d
    ensures k == 0
  {
    assert k >= 1 ==> (k - 1) * d >= 0;
    assert k <= -1 ==> (-1 - k) * d >= 0;
  }

  lemma {:induction false} QuotientRises(a: int, b: int, d: nat)
    requires d > 0 && a <= b
    ensures a / d <= b / d
  {
    var qa, qb := a / d, b / d;
    assert a == qa * d + a % d && b == qb * d + b % d;
    OneMore(qb, qa, d);
  }

  lemma {:induction false} OneMore(x: int, y: int, d: nat)
    ensures x < y ==> x * d + d <= y * d
  {
    var k := y - x - 1;
    assert y * d == x * d + d + k * d;
    assert k >= 0 ==> k * d >= 0;
  }

  lemma {:induction false} ProductBelow(n: nat, d: nat, s: nat)
    requires n < d && s > 0
    ensures n * s < d * s
  {
    if n < d - 1 { ProductBelow(n, d - 1, s); }
    assert d * s == (d - 1) * s + s;
  }

  lemma {:induction false} QuotientBelow(x: nat, d: nat, s: nat)
    requires d > 0 && x < d * s
    ensures 0 <= x / d < s
  {
    var q, r := x / d, x % d;
    assert x == d * q + r;
    if q > s { ProductBelow(s, q, d); }
  }
}
