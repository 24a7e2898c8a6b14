/** Facts about integer multiplication and floor division used by the rescale proofs. */
module Arithmetic {
  lemma MulStrict(x: int, y: int, k: int)
    requires x < y && k > 0
    ensures x * k < y * k
  {
  }

  lemma {:induction false} DivBelow(a: int, b: int, d: int)
    requires d > 0 && 0 <= a < b * d
    ensures 0 <= a / d < b
  {
    var q, r := a / d, a % d;
    assert a == d * q + r && 0 <= r < d;
    if q >= b {
      MulStrict(b - 1, q, d);
    }
  }

  lemma DivMonotone(a: int, b: int, d: int)
    requires d > 0 && a <= b
    ensures a / d <= b / d
  {
    var qa, qb := a / d, b / d;
    assert a == d * qa + a % d;
    assert b == d * qb + b % d;
    if qa > qb {
      MulLe(qb + 1, qa, d);
    }
  }

  lemma MulLe(x: int, y: int, k: int)
    requires x <= y && k >= 0
    ensures x * k <= y * k
  {
  }

  lemma ScaleBelow(v: int, range: int, d: int)
    requires 0 <= v < d && range >= 1
    ensures 0 <= (v * range) / d < range
  {
    MulStrict(v, d, range);
    DivBelow(v * range, range, d);
  }

  lemma DivExact(x: int, d: int)
    requires d > 0
    ensures (x * d) / d == x
  {
    var q, r := (x * d) / d, (x * d) % d;
    assert x * d == d * q + r && 0 <= r < d;
    assert r == (x - q) * d;
    if q < x {
      MulLe(1, x - q, d);
    } else if q > x {
      MulStrict(x - q, 0, d);
    }
  }

  /** The quotient of x = q * d + r with 0 <= r < d is q. */
  lemma DivUnique(x: int, q: int, r: int, d: int)
    requires d > 0 && 0 <= r < d && x == q * d + r
    ensures x / d == q
  {
    var q', r' := x / d, x % d;
    assert x == d * q' + r' && 0 <= r' < d;
    if q' < q {
      MulLe(q' + 1, q, d);
    } else if q' > q {
      MulLe(q + 1, q', d);
    }
  }

  /** The largest numerator below d * range scales to range - 1. */
  lemma ScaleTop(range: int, d: int)
    requires 1 <= range <= d
    ensures ((d - 1) * range) / d == range - 1
  {
    assert (d - 1) * range == (range - 1) * d + (d - range);
    DivUnique((d - 1) * range, range - 1, d - range, d);
  }
}
