/** Facts about real arithmetic that the geometry proofs share.

    `Square` names `a ** 2`. Keeping squares behind a function keeps the
    solver from rewriting `0 < a * a` into `a != 0` and losing the link to
    the product, which it otherwise does. */
module Reals {

  function Square(a: real): real {
    a * a
  }

  /** A square is non-negative, and zero only for a zero base. */
  lemma SquareSign(a: real)
    ensures 0.0 <= Square(a)
    ensures a != 0.0 ==> 0.0 < Square(a)
  {
    if a > 0.0 {
      PositiveProduct(a, a);
    } else if a < 0.0 {
      PositiveProduct(-a, -a);
    }
    if Square(a) == 0.0 {
      ZeroProduct(a, a);
    }
  }

  lemma SquareNegate(a: real)
    ensures Square(-a) == Square(a)
  {
  }

  lemma NegatedProduct(a: real, b: real)
    ensures a * -b == -(a * b)
  {
  }

  lemma NegatedFactors(x: real, y: real, a: real, b: real)
    requires x == -a && y == -b
    ensures x * y == a * b
  {
  }

  lemma NegatedSquare(a: real)
    ensures (-a) * a == -Square(a)
  {
  }

  lemma SquareProduct(a: real, b: real)
    ensures Square(a * b) == Square(a) * Square(b)
  {
  }

  lemma SelfQuotient(a: real)
    requires a != 0.0
    ensures Square(a) / (a * a) == 1.0
  {
    SquareSign(a);
  }

  lemma PositiveProduct(a: real, b: real)
    requires 0.0 < a && 0.0 < b
    ensures 0.0 < a * b
  {
  }

  lemma NonNegativeProduct(a: real, b: real)
    requires 0.0 <= a && 0.0 <= b
    ensures 0.0 <= a * b
  {
    if 0.0 < a && 0.0 < b {
      PositiveProduct(a, b);
    }
  }

  lemma ZeroProduct(a: real, b: real)
    requires a * b == 0.0
    ensures a == 0.0 || b == 0.0
  {
    if a != 0.0 {
      assert b == a * b / a;
    }
  }

  lemma MonotoneProduct(k: real, a: real, b: real)
    requires 0.0 <= k && a <= b
    ensures k * a <= k * b
  {
    NonNegativeProduct(k, b - a);
    assert k * (b - a) == k * b - k * a;
  }

  /** Squares order non-negative reals: y^2 <= x^2 and x >= 0 give y <= x. */
  lemma SquareMonotone(y: real, x: real)
    requires 0.0 <= x
    requires Square(y) <= Square(x)
    ensures y <= x
  {
    if 0.0 < x + y {
      var d := Square(x) - Square(y);
      assert (x - y) * (x + y) == d;
      assert x - y == d / (x + y);
    }
  }

  /** For a non-negative x, x < 1 exactly when x^2 < 1. */
  lemma UnitSquare(x: real)
    requires 0.0 <= x
    ensures x < 1.0 <==> Square(x) < 1.0
  {
    if x < 1.0 {
      MonotoneProduct(x, x, 1.0);
    } else {
      MonotoneProduct(x, 1.0, x);
    }
  }

  /** The non-negative root of a square is unique. */
  lemma SquareInjective(s: real, x: real)
    requires 0.0 <= s && 0.0 <= x
    requires Square(s) == Square(x)
    ensures s == x
  {
    SquareMonotone(s, x);
    SquareMonotone(x, s);
  }

  /** A quotient of a value bounded by a positive divisor lies in [-1, 1]. */
  lemma QuotientBound(c: real, d: real)
    requires 0.0 < d
    requires -d <= c <= d
    ensures -1.0 <= c / d <= 1.0
  {
    var q := c / d;
    assert q * d == c;
    if q > 1.0 {
      PositiveProduct(q - 1.0, d);
    }
    if q < -1.0 {
      PositiveProduct(-1.0 - q, d);
    }
  }
}
