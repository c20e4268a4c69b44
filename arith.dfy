/** Facts about multiplication and Euclidean division on naturals that the
    resolution and sampling formulas rely on. */
module Arith {

  lemma MulMonotone(a: int, b: int, c: int)
    requires a <= b && c >= 0
    ensures a * c <= b * c
  {
  }

  /** The quotient of Euclidean division brackets the dividend. */
  lemma FloorDivBounds(a: int, b: int)
    requires b > 0
    ensures (a / b) * b <= a < (a / b + 1) * b
  {
    assert a == (a / b) * b + a % b;
  }

  /** A quotient and remainder in range are the quotient. */
  lemma DivUnique(n: int, d: int, q: int, r: int)
    requires d > 0 && 0 <= r < d && n == q * d + r
    ensures n / d == q
  {
    var q' := n / d;
    FloorDivBounds(n, d);
    if q' < q {
      MulMonotone(q' + 1, q, d);
    } else if q' > q {
      MulMonotone(q + 1, q', d);
    }
  }

  lemma DivMonotone(a: int, b: int, d: int)
    requires a <= b && d > 0
    ensures a / d <= b / d
  {
    FloorDivBounds(a, d);
    FloorDivBounds(b, d);
    if a / d > b / d {
      MulMonotone(b / d + 1, a / d, d);
    }
  }

  lemma MulDivCancel(a: int, d: int)
    requires d > 0
    ensures (a * d) / d == a
  {
    DivUnique(a * d, d, a, 0);
  }

  /** Adding the divisor adds one to the quotient. */
  lemma DivAddDivisor(a: int, d: int)
    requires d > 0
    ensures (a + d) / d == a / d + 1
  {
    FloorDivBounds(a, d);
    DivUnique(a + d, d, a / d + 1, a - (a / d) * d);
  }
}
