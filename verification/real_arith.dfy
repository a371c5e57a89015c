/** Small facts of real arithmetic that the solver needs stated on their own. */
module RealArith {

  lemma DivMulCancel(x: real, y: real)
    requires y != 0.0
    ensures (x / y) * y == x
  {
  }

  lemma DivSelf(x: real)
    requires x != 0.0
    ensures x / x == 1.0
  {
  }

  /** Multiplying both sides of an inequality by a non-negative number. */
  lemma ScaleMonotone(p: real, q: real, y: real)
    requires p <= q && y >= 0.0
    ensures p * y <= q * y
  {
  }

  /** Multiplying both sides of a strict inequality by a positive number. */
  lemma ScaleStrictlyMonotone(p: real, q: real, y: real)
    requires p < q && y > 0.0
    ensures p * y < q * y
  {
  }

  lemma ProductNegative(x: real, y: real)
    requires x > 0.0 && y < 0.0
    ensures x * y < 0.0
  {
  }

  /** A quotient of a non-negative number by a larger one lies in [0, 1). */
  lemma FractionInUnitInterval(x: real, y: real)
    requires 0.0 <= x < y
    ensures 0.0 <= x / y < 1.0
    ensures x / y == 0.0 <==> x == 0.0
  {
    var q := x / y;
    DivMulCancel(x, y);
    if q >= 1.0 {
      ScaleMonotone(1.0, q, y);
    }
    if q < 0.0 {
      ScaleMonotone(q, 0.0, y);
    }
  }

  /** A quotient of a number in [0, y] by y lies in [0, 1], and is 1 exactly at y. */
  lemma FractionInClosedUnitInterval(x: real, y: real)
    requires 0.0 <= x <= y && y > 0.0
    ensures 0.0 <= x / y <= 1.0
    ensures x / y == 1.0 <==> x == y
  {
    if x < y {
      FractionInUnitInterval(x, y);
    } else {
      DivSelf(y);
    }
  }

  /** If x is t copies of y and t is at least q, then x is at least q copies of y. */
  lemma ScaledLowerBound(x: real, y: real, t: real, q: real)
    requires y > 0.0 && t * y == x && q <= t
    ensures q * y <= x
  {
    var gap := t - q;
    assert gap * y >= 0.0;
    assert t * y - q * y == gap * y;
  }

  /** If x is t copies of y and t is below u, then x is below u copies of y. */
  lemma ScaledUpperBound(x: real, y: real, t: real, u: real)
    requires y > 0.0 && t * y == x && t < u
    ensures x < u * y
  {
    var gap := u - t;
    assert gap * y > 0.0;
    assert u * y - t * y == gap * y;
  }

  /** Multiplying both sides of an inequality by a non-positive number reverses it. */
  lemma ScaleAntitone(p: real, q: real, y: real)
    requires p <= q && y <= 0.0
    ensures q * y <= p * y
  {
    var z := -y;
    assert p * z <= q * z;
    assert p * z == -(p * y);
    assert q * z == -(q * y);
  }
}
