/**
 * Per-axis linear interpolation, shared by the server's movement step and the
 * map's marker animation, with the real-arithmetic facts both rely on.
 */
module Interpolation {

  /** `from + (to - from) * p`. */
  function Lerp(from: real, to: real, p: real): real {
    from + (to - from) * p
  }

  /** Fraction 0 is the start, fraction 1 the end. */
  lemma LerpEndpoints(from: real, to: real)
    ensures Lerp(from, to, 0.0) == from
    ensures Lerp(from, to, 1.0) == to
  {
  }

  /** For a fraction in [0, 1] the point lies between the two ends. */
  lemma LerpBetween(from: real, to: real, p: real)
    requires 0.0 <= p <= 1.0
    ensures from <= to ==> from <= Lerp(from, to, p) <= to
    ensures to <= from ==> to <= Lerp(from, to, p) <= from
  {
    var d := to - from;
    var m := d * p;
    assert Lerp(from, to, p) == from + m;
    if from <= to {
      ScaleBetween(d, p);
    } else {
      ScaleBetween(-d, p);
      assert (-d) * p == -m;
    }
  }

  /** A larger fraction moves the point further along in the direction of `to`. */
  lemma LerpMonotone(from: real, to: real, p: real, q: real)
    requires p <= q
    ensures from <= to ==> Lerp(from, to, p) <= Lerp(from, to, q)
    ensures to <= from ==> Lerp(from, to, q) <= Lerp(from, to, p)
  {
    var d := to - from;
    var e := q - p;
    assert Lerp(from, to, q) == Lerp(from, to, p) + d * e by {
      assert d * q == d * p + d * e;
    }
    if from <= to {
      SignOfProduct(d, e);
    }
    if to <= from {
      SignOfProduct(-d, e);
      assert (-d) * e == -(d * e);
    }
  }

  lemma SignOfProduct(x: real, y: real)
    ensures x < 0.0 && y > 0.0 ==> x * y < 0.0
    ensures x >= 0.0 && y >= 0.0 ==> x * y >= 0.0
  {
  }

  lemma ScaleBetween(x: real, p: real)
    requires x >= 0.0 && 0.0 <= p <= 1.0
    ensures 0.0 <= x * p <= x
  {
    SignOfProduct(x, p);
    SignOfProduct(x, 1.0 - p);
    assert x * (1.0 - p) == x - x * p;
  }

  lemma DivAtLeastOne(a: real, b: real)
    requires b > 0.0 && a >= b
    ensures a / b >= 1.0
  {
    var q := a / b;
    assert q * b == a;
    SignOfProduct(q - 1.0, b);
    assert (q - 1.0) * b == q * b - b;
  }

  lemma DivMonotone(a: real, b: real, d: real)
    requires d > 0.0 && a <= b
    ensures a / d <= b / d
  {
    assert b / d - a / d == (b - a) / d;
  }
}
