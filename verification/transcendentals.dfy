/** The transcendental part of Python's `math` module, as a parameter.

    `sqrt`, `sin`, `cos` and `acos` are not computed: a `Math` value supplies
    them, and `Lawful` lists the laws of the real functions that the geometry
    relies on. Every law is true of the mathematical functions, so a statement
    proved under `Lawful(m)` holds of exact real arithmetic. It need not hold
    of the floating-point `math` module: where the program tests `== 0` or
    `< 1` on a value that is exactly 0 or 1 in the reals, rounding error can
    send the float program down the other branch (at the poles, for one).
    `radians` and `degrees` are plain scalings by `pi`, so they are defined,
    not assumed. */
module Transcendentals {
  import opened Reals

  datatype Math = Math(
    sqrt: real -> real,
    sin: real -> real,
    cos: real -> real,
    acos: real -> real,
    pi: real)

  ghost predicate Lawful(m: Math) {
    PiBounds(m) && SqrtLaw(m) && TrigLaws(m) && AcosLaw(m)
  }

  ghost predicate PiBounds(m: Math) {
    3.14 < m.pi < 3.15
  }

  /** The square root of a non-negative number is non-negative and squares
      back to it. */
  ghost predicate SqrtLaw(m: Math) {
    forall x :: 0.0 <= x ==> 0.0 <= m.sqrt(x) && Square(m.sqrt(x)) == x
  }

  /** sin^2 + cos^2 = 1, sine is odd and cosine even, and the values at 0,
      pi/2 and pi. */
  ghost predicate TrigLaws(m: Math) {
    && (forall x :: Square(m.sin(x)) + Square(m.cos(x)) == 1.0)
    && (forall x :: m.sin(-x) == -m.sin(x) && m.cos(-x) == m.cos(x))
    && m.sin(0.0) == 0.0 && m.cos(0.0) == 1.0
    && m.sin(m.pi / 2.0) == 1.0 && m.cos(m.pi) == -1.0
  }

  /** acos maps [-1, 1] into [0, pi], with acos 1 = 0, acos 0 = pi/2 and
      acos -1 = pi. */
  ghost predicate AcosLaw(m: Math) {
    && (forall x :: -1.0 <= x <= 1.0 ==> 0.0 <= m.acos(x) <= m.pi)
    && m.acos(1.0) == 0.0 && m.acos(0.0) == m.pi / 2.0 && m.acos(-1.0) == m.pi
  }

  /** `math.sqrt`: raises for a negative argument, hence the precondition. */
  function Sqrt(m: Math, x: real): real
    requires 0.0 <= x
  {
    m.sqrt(x)
  }

  /** `math.acos`: raises a domain error outside [-1, 1], hence the precondition. */
  function Acos(m: Math, x: real): real
    requires -1.0 <= x <= 1.0
  {
    m.acos(x)
  }

  function Radians(m: Math, deg: real): real {
    deg * m.pi / 180.0
  }

  /** `math.degrees`: maps an angle in [0, pi] into [0, 180]. */
  function Degrees(m: Math, rad: real): (r: real)
    requires Lawful(m)
    ensures 0.0 <= rad <= m.pi ==> 0.0 <= r <= 180.0
  {
    DegreesBound(m.pi, rad);
    rad * 180.0 / m.pi
  }

  lemma DegreesBound(pi: real, rad: real)
    requires 0.0 < pi
    ensures 0.0 <= rad <= pi ==> 0.0 <= rad * 180.0 / pi <= 180.0
  {
    if 0.0 <= rad <= pi {
      var q := (2.0 * rad - pi) / pi;
      var d := rad * 180.0 / pi;
      QuotientBound(2.0 * rad - pi, pi);
      assert q * pi == 2.0 * rad - pi;
      assert d * pi == rad * 180.0;
      assert (d - (90.0 * q + 90.0)) * pi == d * pi - 90.0 * (q * pi) - 90.0 * pi;
      ZeroProduct(d - (90.0 * q + 90.0), pi);
    }
  }

  /** `degrees` undoes `radians`. */
  lemma DegreesOfRadians(m: Math, deg: real)
    requires Lawful(m)
    ensures Degrees(m, Radians(m, deg)) == deg
  {
    assert deg * m.pi / 180.0 * 180.0 == deg * m.pi;
  }

  /** The square root of a square is the non-negative base. */
  lemma SqrtOfSquare(m: Math, x: real)
    requires Lawful(m)
    requires 0.0 <= x
    ensures Sqrt(m, Square(x)) == x
  {
    SquareSign(x);
    SquareInjective(m.sqrt(Square(x)), x);
  }

  /** A square root is zero exactly when its argument is. */
  lemma SqrtZero(m: Math, x: real)
    requires Lawful(m)
    requires 0.0 <= x
    ensures Sqrt(m, x) == 0.0 <==> x == 0.0
  {
    assert Square(m.sqrt(x)) == x;
    if x == 0.0 {
      SqrtOfSquare(m, 0.0);
    }
  }

  /** A sine whose cosine is -1 is 0. */
  lemma SinWhereCosIsMinusOne(m: Math, x: real)
    requires Lawful(m)
    requires m.cos(x) == -1.0
    ensures m.sin(x) == 0.0
  {
    assert Square(m.sin(x)) == 0.0;
    ZeroProduct(m.sin(x), m.sin(x));
  }

  /** A cosine whose sine is 1 is 0. */
  lemma CosWhereSinIsOne(m: Math, x: real)
    requires Lawful(m)
    requires m.sin(x) == 1.0
    ensures m.cos(x) == 0.0
  {
    assert Square(m.cos(x)) == 0.0;
    ZeroProduct(m.cos(x), m.cos(x));
  }
}
