/** The JavaScript `Math` helpers the layout code uses, over exact reals. */
module Numeric {

  function Abs(x: real): (r: real)
    ensures r >= 0.0 && (r == x || r == -x)
  {
    if x < 0.0 then -x else x
  }

  function Min(a: real, b: real): (r: real)
    ensures r <= a && r <= b && (r == a || r == b)
  {
    if a <= b then a else b
  }

  function Max(a: real, b: real): (r: real)
    ensures r >= a && r >= b && (r == a || r == b)
  {
    if a >= b then a else b
  }

  /** `Math.ceil`: the least integer not below `x`. */
  function Ceil(x: real): (c: int)
    ensures x <= c as real < x + 1.0
  {
    if x.Floor as real == x then x.Floor else x.Floor + 1
  }

  /** Multiplying an inequality by a non-negative factor keeps it. */
  lemma MulMonotone(a: real, b: real, c: real)
    requires a <= b && c >= 0.0
    ensures a * c <= b * c
  {
    assert b * c - a * c == (b - a) * c;
  }

  lemma MulNonNegative(a: real, b: real)
    requires a >= 0.0 && b >= 0.0
    ensures a * b >= 0.0
  {
  }

  /** A non-negative factor comes out of an absolute value. */
  lemma AbsScale(a: real, m: real)
    requires m >= 0.0
    ensures Abs(a * m) == Abs(a) * m
  {
    if a < 0.0 {
      MulNonNegative(-a, m);
      assert -(a * m) == (-a) * m;
    } else {
      MulNonNegative(a, m);
    }
  }

  /** Dividing by half of a positive length doubles the ratio. */
  lemma DivideByHalf(x: real, a: real, m: real)
    requires m > 0.0 && x == a * m
    ensures x / (m / 2.0) == 2.0 * a
  {
    assert (2.0 * a) * (m / 2.0) == x;
  }

  /** Dividing by a non-zero factor and multiplying back gives the original value. */
  lemma DivMulCancel(a: real, m: real)
    requires m != 0.0
    ensures (a / m) * m == a
  {
  }

  /** Multiplying by a non-zero factor and dividing back gives the original value. */
  lemma MulDivCancel(a: real, m: real)
    requires m != 0.0
    ensures (m * a) / m == a
  {
  }

  /** A part of a positive whole, divided by the whole, is a fraction in [0, 1]. */
  lemma FractionOfWhole(a: real, m: real)
    requires m > 0.0 && 0.0 <= a <= m
    ensures 0.0 <= a / m <= 1.0
  {
    var q := a / m;
    DivMulCancel(a, m);
    if q < 0.0 {
      MulPositive(-q, m);
    } else if q > 1.0 {
      MulPositive(q - 1.0, m);
    }
  }

  lemma MulPositive(a: real, b: real)
    requires a > 0.0 && b > 0.0
    ensures a * b > 0.0
  {
  }

  /** For a positive whole, a / m is below, at or above 1 exactly as a is below, at or above m. */
  lemma RatioAgainstOne(a: real, m: real)
    requires m > 0.0
    ensures a < m <==> a / m < 1.0
    ensures a > m <==> a / m > 1.0
  {
    var q := a / m;
    DivMulCancel(a, m);
    if q < 1.0 {
      MulPositive(1.0 - q, m);
    } else if q > 1.0 {
      MulPositive(q - 1.0, m);
    }
  }

  /** Scaling by a positive factor keeps the sign; scaling by a negative one flips it. */
  lemma ProductSign(a: real, b: real)
    ensures b > 0.0 ==> (a * b > 0.0 <==> a > 0.0) && (a * b < 0.0 <==> a < 0.0)
    ensures b < 0.0 ==> (a * b > 0.0 <==> a < 0.0) && (a * b < 0.0 <==> a > 0.0)
  {
    if b > 0.0 && a > 0.0 {
      MulPositive(a, b);
    } else if b > 0.0 && a < 0.0 {
      MulPositive(-a, b);
    } else if b < 0.0 && a > 0.0 {
      MulPositive(a, -b);
    } else if b < 0.0 && a < 0.0 {
      MulPositive(-a, -b);
    }
  }
}
