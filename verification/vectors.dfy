/** Vector algebra over sequences of reals: `magnitude`, `dot_product` and
    `cross_product` of geo.py. Python tuples of any length become `seq<real>`;
    the length checks the library performs at run time stay run-time checks
    and yield a `Failure`. */
module Vectors {
  import opened Reals
  import opened Errors
  import opened Transcendentals

  type Vector = seq<real>

  /** The unit vector along the polar axis, `(0, 0, 1)`. */
  const Up: Vector := [0.0, 0.0, 1.0]

  ghost predicate IsZero(v: Vector) {
    forall i :: 0 <= i < |v| ==> v[i] == 0.0
  }

  /** sum v_i^2, the argument of the square root in `magnitude`: never negative,
      and zero exactly for the zero vector. */
  function SumSquares(v: Vector): (r: real)
    ensures 0.0 <= r
    ensures IsZero(v) <==> r == 0.0
  {
    if |v| == 0 then 0.0
    else
      IsZeroSplit(v);
      SquareSign(v[0]);
      Square(v[0]) + SumSquares(v[1..])
  }

  lemma IsZeroSplit(v: Vector)
    requires |v| > 0
    ensures IsZero(v) <==> v[0] == 0.0 && IsZero(v[1..])
  {
    if v[0] == 0.0 && IsZero(v[1..]) {
      forall i | 0 <= i < |v| ensures v[i] == 0.0 {
        if 0 < i { assert v[i] == v[1..][i - 1]; }
      }
    }
  }

  /** `magnitude(v)`: the Euclidean norm. It is never negative, its square is
      the sum of squares, and it is zero exactly for the zero vector. */
  function Magnitude(m: Math, v: Vector): (r: real)
    requires Lawful(m)
    ensures 0.0 <= r
    ensures Square(r) == SumSquares(v)
    ensures r == 0.0 <==> IsZero(v)
  {
    SqrtZero(m, SumSquares(v));
    Sqrt(m, SumSquares(v))
  }

  /** sum v_iw_i over two sequences of equal length. */
  function PairwiseSum(v: Vector, w: Vector): real
    requires |v| == |w|
  {
    if |v| == 0 then 0.0 else v[0] * w[0] + PairwiseSum(v[1..], w[1..])
  }

  /** `dot_product(v, w)`: fails exactly on a length mismatch; otherwise the
      sum of the pairwise products, which does not depend on operand order and
      is the sum of squares when both operands are the same vector. */
  function Dot(v: Vector, w: Vector): (r: Result<real>)
    ensures r.Failure? <==> |v| != |w|
    ensures r.Failure? ==> r.error == LengthMismatch
    ensures r.Success? ==> r.value == PairwiseSum(w, v)
    ensures r.Success? && v == w ==> r.value == SumSquares(v)
  {
    if |v| != |w| then Failure(LengthMismatch)
    else
      PairwiseSumSymmetric(v, w);
      PairwiseSumSelf(v);
      Success(PairwiseSum(v, w))
  }

  lemma {:induction false} PairwiseSumSymmetric(v: Vector, w: Vector)
    requires |v| == |w|
    ensures PairwiseSum(v, w) == PairwiseSum(w, v)
  {
    if |v| != 0 {
      PairwiseSumSymmetric(v[1..], w[1..]);
    }
  }

  lemma {:induction false} PairwiseSumSelf(v: Vector)
    ensures PairwiseSum(v, v) == SumSquares(v)
  {
    if |v| != 0 {
      PairwiseSumSelf(v[1..]);
    }
  }

  /** The dot product is symmetric, in its failures as well as its values. */
  lemma DotSymmetric(v: Vector, w: Vector)
    ensures Dot(v, w) == Dot(w, v)
  {
    if |v| == |w| {
      PairwiseSumSymmetric(v, w);
    }
  }

  /** The dot product of two 3-vectors given by their components. */
  function Dot3(x0: real, x1: real, x2: real, y0: real, y1: real, y2: real): real {
    x0 * y0 + x1 * y1 + x2 * y2
  }

  /** The three-component expansion of the pairwise sum. */
  lemma PairwiseSum3(v: Vector, w: Vector)
    requires |v| == 3 && |w| == 3
    ensures PairwiseSum(v, w) == Dot3(v[0], v[1], v[2], w[0], w[1], w[2])
  {
    var v1, w1 := v[1..], w[1..];
    var v2, w2 := v1[1..], w1[1..];
    assert PairwiseSum(v2[1..], w2[1..]) == 0.0;
    assert PairwiseSum(v2, w2) == v[2] * w[2];
    assert PairwiseSum(v1, w1) == v[1] * w[1] + v[2] * w[2];
  }

  lemma SumSquares3(v: Vector)
    requires |v| == 3
    ensures SumSquares(v) == Square(v[0]) + Square(v[1]) + Square(v[2])
  {
    var v1 := v[1..];
    var v2 := v1[1..];
    assert SumSquares(v2[1..]) == 0.0;
  }

  /** (v.w)^2 <= |v|^2|w|^2, over the dot product and the two squared norms. */
  ghost predicate SchwarzBound(d: real, sv: real, sw: real) {
    Square(d) <= sv * sw
  }

  /** Cauchy-Schwarz: (v.w)^2 <= |v|^2|w|^2. */
  lemma {:induction false} CauchySchwarz(v: Vector, w: Vector)
    requires |v| == |w|
    ensures SchwarzBound(PairwiseSum(v, w), SumSquares(v), SumSquares(w))
  {
    if |v| != 0 {
      var c, sa, sb := PairwiseSum(v[1..], w[1..]), SumSquares(v[1..]), SumSquares(w[1..]);
      CauchySchwarz(v[1..], w[1..]);
      CauchySchwarzStep(v[0], w[0], c, sa, sb);
    }
  }

  /** The induction step of Cauchy-Schwarz: one component pair (a, b) added
      to a prefix whose dot product is c and whose squared norms are sa, sb. */
  lemma CauchySchwarzStep(a: real, b: real, c: real, sa: real, sb: real)
    requires 0.0 <= sa && 0.0 <= sb
    requires SchwarzBound(c, sa, sb)
    ensures SchwarzBound(a * b + c, Square(a) + sa, Square(b) + sb)
  {
    var aa, bb := Square(a), Square(b);
    SquareSign(a);
    SquareSign(b);
    NonNegativeProduct(aa, sb);
    NonNegativeProduct(bb, sa);
    var x := aa * sb + bb * sa;
    var y := 2.0 * (a * b) * c;
    CrossTermBound(a, b, c, sa, sb);
    SquareMonotone(y, x);
    ExpandSquare(a, b, c);
    ExpandProduct(aa, sa, bb, sb);
  }

  lemma ExpandSquare(a: real, b: real, c: real)
    ensures Square(a * b + c) == Square(a) * Square(b) + 2.0 * (a * b) * c + Square(c)
  {
  }

  lemma ExpandProduct(aa: real, sa: real, bb: real, sb: real)
    ensures (aa + sa) * (bb + sb) == aa * bb + (aa * sb + bb * sa) + sa * sb
  {
  }

  /** (2abc)^2 <= (a^2.sb + b^2.sa)^2, the heart of the induction step. */
  lemma CrossTermBound(a: real, b: real, c: real, sa: real, sb: real)
    requires 0.0 <= sa && 0.0 <= sb
    requires Square(c) <= sa * sb
    ensures Square(2.0 * (a * b) * c) <= Square(Square(a) * sb + Square(b) * sa)
  {
    var aa, bb := Square(a), Square(b);
    var k := 4.0 * (aa * bb);
    SquareSign(a);
    SquareSign(b);
    NonNegativeProduct(aa, bb);
    MonotoneProduct(k, Square(c), sa * sb);
    assert Square(2.0 * (a * b) * c) == k * Square(c);
    var d := aa * sb - bb * sa;
    SquareSign(d);
    assert Square(aa * sb + bb * sa) == Square(d) + k * (sa * sb);
  }

  /** `cross_product(v, w)`: fails unless both operands have length 3;
      otherwise a 3-vector perpendicular to both operands. */
  function Cross(v: Vector, w: Vector): (r: Result<Vector>)
    ensures r.Failure? <==> |v| != 3 || |w| != 3
    ensures r.Failure? ==> r.error == InvalidDimension
    ensures r.Success? ==> |r.value| == 3
    ensures r.Success? ==> PairwiseSum(r.value, v) == 0.0 && PairwiseSum(r.value, w) == 0.0
  {
    if |v| != 3 || |w| != 3 then Failure(InvalidDimension)
    else
      var c := [v[1] * w[2] - v[2] * w[1],
                v[2] * w[0] - v[0] * w[2],
                v[0] * w[1] - v[1] * w[0]];
      PairwiseSum3(c, v);
      PairwiseSum3(c, w);
      Success(c)
  }

  /** The three components of a cross product of 3-vectors. */
  lemma CrossComponents(v: Vector, w: Vector)
    requires |v| == 3 && |w| == 3
    ensures Cross(v, w).value[0] == v[1] * w[2] - v[2] * w[1]
    ensures Cross(v, w).value[1] == v[2] * w[0] - v[0] * w[2]
    ensures Cross(v, w).value[2] == v[0] * w[1] - v[1] * w[0]
  {
  }

  function Negate(v: Vector): (r: Vector)
    ensures |r| == |v|
    ensures forall i :: 0 <= i < |v| ==> r[i] == -v[i]
  {
    seq(|v|, i requires 0 <= i < |v| => -v[i])
  }

  /** Negation flips the sign of a dot product with the original vector:
      -v . v = -|v|^2. */
  lemma {:induction false} NegateDot(v: Vector)
    ensures PairwiseSum(Negate(v), v) == -SumSquares(v)
  {
    if |v| > 0 {
      NegateTail(v);
      NegateDot(v[1..]);
      NegatedSquare(v[0]);
    }
  }

  /** Negation keeps the length: |-v|^2 = |v|^2. */
  lemma {:induction false} NegateLength(v: Vector)
    ensures SumSquares(Negate(v)) == SumSquares(v)
  {
    if |v| > 0 {
      NegateTail(v);
      NegateLength(v[1..]);
      SquareNegate(v[0]);
    }
  }

  lemma NegateTail(v: Vector)
    requires |v| > 0
    ensures Negate(v)[1..] == Negate(v[1..])
  {
  }

  /** The cross product is anti-commutative: swapping the operands negates it. */
  lemma CrossAntiCommutative(v: Vector, w: Vector)
    ensures Cross(v, w).Failure? == Cross(w, v).Failure?
    ensures Cross(v, w).Success? ==> Cross(w, v).value == Negate(Cross(v, w).value)
  {
  }

  /** A vector crossed with itself is the zero vector. */
  lemma CrossSelf(v: Vector)
    requires |v| == 3
    ensures Cross(v, v) == Success([0.0, 0.0, 0.0])
  {
  }

  /** A vector and its opposite are parallel: v x -v = 0. */
  lemma CrossAntiparallel(v: Vector)
    requires |v| == 3
    ensures Cross(v, Negate(v)) == Success([0.0, 0.0, 0.0])
  {
    var c := Cross(v, Negate(v)).value;
    NegatedProduct(v[1], v[2]);
    NegatedProduct(v[2], v[0]);
    NegatedProduct(v[0], v[1]);
    NegatedProduct(v[2], v[1]);
    NegatedProduct(v[0], v[2]);
    NegatedProduct(v[1], v[0]);
    assert c[0] == 0.0 && c[1] == 0.0 && c[2] == 0.0;
  }

  /** The right-handed basis: x-hat x y-hat = z-hat. */
  lemma CrossBasis()
    ensures Cross([1.0, 0.0, 0.0], [0.0, 1.0, 0.0]) == Success(Up)
  {
  }

  /** The scalar triple product may rotate: (a x v).w = a.(v x w). */
  lemma TripleProduct(a: Vector, v: Vector, w: Vector)
    requires |a| == 3 && |v| == 3 && |w| == 3
    ensures PairwiseSum(Cross(a, v).value, w) == PairwiseSum(a, Cross(v, w).value)
  {
    var x, y := Cross(a, v).value, Cross(v, w).value;
    RotateTriple(a, v, w, x, y);
    PairwiseSum3(x, w);
    PairwiseSum3(a, y);
  }

  lemma RotateTriple(a: Vector, v: Vector, w: Vector, x: Vector, y: Vector)
    requires |a| == 3 && |v| == 3 && |w| == 3 && |x| == 3 && |y| == 3
    requires x[0] == a[1] * v[2] - a[2] * v[1]
    requires x[1] == a[2] * v[0] - a[0] * v[2]
    requires x[2] == a[0] * v[1] - a[1] * v[0]
    requires y[0] == v[1] * w[2] - v[2] * w[1]
    requires y[1] == v[2] * w[0] - v[0] * w[2]
    requires y[2] == v[0] * w[1] - v[1] * w[0]
    ensures Dot3(x[0], x[1], x[2], w[0], w[1], w[2]) == Dot3(a[0], a[1], a[2], y[0], y[1], y[2])
  {
    TripleProductExpanded(a[0], a[1], a[2], v[0], v[1], v[2], w[0], w[1], w[2],
                          x[0], x[1], x[2], y[0], y[1], y[2]);
  }

  lemma TripleProductExpanded(a0: real, a1: real, a2: real,
                              v0: real, v1: real, v2: real,
                              w0: real, w1: real, w2: real,
                              x0: real, x1: real, x2: real,
                              y0: real, y1: real, y2: real)
    requires x0 == a1 * v2 - a2 * v1 && x1 == a2 * v0 - a0 * v2 && x2 == a0 * v1 - a1 * v0
    requires y0 == v1 * w2 - v2 * w1 && y1 == v2 * w0 - v0 * w2 && y2 == v0 * w1 - v1 * w0
    ensures Dot3(x0, x1, x2, w0, w1, w2) == Dot3(a0, a1, a2, y0, y1, y2)
  {
  }

  /** Lagrange's identity, |a x b|^2 = |a|^2|b|^2 - (a.b)^2, with the four
      quantities returned as plain values. */
  lemma Lagrange(a: Vector, b: Vector) returns (sa: real, sb: real, sc: real, d: real)
    requires |a| == 3 && |b| == 3
    ensures sa == SumSquares(a) && sb == SumSquares(b)
    ensures sc == SumSquares(Cross(a, b).value) && d == PairwiseSum(a, b)
    ensures sc == sa * sb - Square(d)
  {
    var c := Cross(a, b).value;
    CrossComponents(a, b);
    SumSquares3(a);
    SumSquares3(b);
    SumSquares3(c);
    PairwiseSum3(a, b);
    sa, sb, sc, d := LagrangeIdentity(a[0], a[1], a[2], b[0], b[1], b[2], c[0], c[1], c[2]);
  }

  lemma ProductCongruence(x: real, x2: real, y: real, y2: real)
    requires x == x2 && y == y2
    ensures x * y == x2 * y2
  {
  }

  /** Lagrange's identity in coordinates: with c = a x b,
      |c|^2 = |a|^2|b|^2 - (a.b)^2. The sums are returned as plain values so that
      callers can match them against their own terms. */
  lemma LagrangeIdentity(a0: real, a1: real, a2: real,
                         b0: real, b1: real, b2: real,
                         c0: real, c1: real, c2: real)
    returns (sa: real, sb: real, sc: real, d: real)
    requires c0 == a1 * b2 - a2 * b1 && c1 == a2 * b0 - a0 * b2 && c2 == a0 * b1 - a1 * b0
    ensures sa == Square(a0) + Square(a1) + Square(a2)
    ensures sb == Square(b0) + Square(b1) + Square(b2)
    ensures sc == Square(c0) + Square(c1) + Square(c2)
    ensures d == a0 * b0 + a1 * b1 + a2 * b2
    ensures sc == sa * sb - Square(d)
  {
    sa, sb := Square(a0) + Square(a1) + Square(a2), Square(b0) + Square(b1) + Square(b2);
    sc, d := Square(c0) + Square(c1) + Square(c2), a0 * b0 + a1 * b1 + a2 * b2;
    var p00, p01, p02 := a0 * b0, a0 * b1, a0 * b2;
    var p10, p11, p12 := a1 * b0, a1 * b1, a1 * b2;
    var p20, p21, p22 := a2 * b0, a2 * b1, a2 * b2;
    SquareProduct(a0, b0); SquareProduct(a0, b1); SquareProduct(a0, b2);
    SquareProduct(a1, b0); SquareProduct(a1, b1); SquareProduct(a1, b2);
    SquareProduct(a2, b0); SquareProduct(a2, b1); SquareProduct(a2, b2);
    ProductSwap(a0, b0, a1, b1, p00, p11, p01, p10);
    ProductSwap(a0, b0, a2, b2, p00, p22, p02, p20);
    ProductSwap(a1, b1, a2, b2, p11, p22, p12, p21);
    LagrangeInProducts(p00, p01, p02, p10, p11, p12, p20, p21, p22);
  }

  lemma ProductSwap(a: real, b: real, c: real, d: real, ab: real, cd: real, ad: real, cb: real)
    requires ab == a * b && cd == c * d && ad == a * d && cb == c * b
    ensures ab * cd == ad * cb
  {
  }

  lemma LagrangeInProducts(p00: real, p01: real, p02: real,
                           p10: real, p11: real, p12: real,
                           p20: real, p21: real, p22: real)
    requires p00 * p11 == p01 * p10 && p00 * p22 == p02 * p20 && p11 * p22 == p12 * p21
    ensures Square(p12 - p21) + Square(p20 - p02) + Square(p01 - p10)
         == Square(p00) + Square(p01) + Square(p02)
          + Square(p10) + Square(p11) + Square(p12)
          + Square(p20) + Square(p21) + Square(p22)
          - Square(p00 + p11 + p22)
  {
  }

  /** Reflection in the plane y = 0: (x, y, z) becomes (x, -y, z). */
  function Mirror(v: Vector): Vector
    requires |v| == 3
  {
    [v[0], -v[1], v[2]]
  }

  /** Reflection is an isometry: it keeps dot products. */
  lemma MirrorDot(a: Vector, b: Vector)
    requires |a| == 3 && |b| == 3
    ensures PairwiseSum(Mirror(a), Mirror(b)) == PairwiseSum(a, b)
  {
    Dot3Mirror(a[0], a[1], a[2], b[0], b[1], b[2]);
    PairwiseSum3(Mirror(a), Mirror(b));
    PairwiseSum3(a, b);
  }

  lemma Dot3Mirror(x0: real, x1: real, x2: real, y0: real, y1: real, y2: real)
    ensures Dot3(x0, -x1, x2, y0, -y1, y2) == Dot3(x0, x1, x2, y0, y1, y2)
  {
    NegatedFactors(-x1, -y1, x1, y1);
  }

  /** Reflection keeps lengths. */
  lemma MirrorLength(a: Vector)
    requires |a| == 3
    ensures SumSquares(Mirror(a)) == SumSquares(a)
  {
    SquareNegate(a[1]);
    SumSquares3(Mirror(a));
    SumSquares3(a);
  }

  /** The reflection keeps the vertical axis. */
  lemma MirrorUp()
    ensures Mirror(Up) == Up
  {
  }

  /** Reflection is improper: the cross product of two reflected vectors is
      the reflected cross product, negated: (-x, y, -z). */
  lemma CrossMirror(a: Vector, b: Vector)
    requires |a| == 3 && |b| == 3
    ensures Cross(Mirror(a), Mirror(b)).value == Negate(Mirror(Cross(a, b).value))
  {
    var c, d := Cross(a, b).value, Cross(Mirror(a), Mirror(b)).value;
    assert d[0] == -c[0] && d[1] == c[1] && d[2] == -c[2];
  }

  /** A second reflected cross product undoes the sign flip of the first:
      (-(Mirror c)) x (Mirror v) = Mirror (c x v). */
  lemma CrossNegatedMirror(c: Vector, v: Vector)
    requires |c| == 3 && |v| == 3
    ensures Cross(Negate(Mirror(c)), Mirror(v)).value == Mirror(Cross(c, v).value)
  {
    var t, u := Cross(Negate(Mirror(c)), Mirror(v)).value, Mirror(Cross(c, v).value);
    assert t[0] == u[0] && t[1] == u[1] && t[2] == u[2];
  }

  /** The tests' dot products: (1, 2).(3, 4) = 11 and (1, 1, 1).(1, 1, 1) = 3;
      operands of different lengths fail. */
  lemma DotExamples()
    ensures Dot([1.0, 2.0], [3.0, 4.0]) == Success(11.0)
    ensures Dot([1.0, 1.0, 1.0], [1.0, 1.0, 1.0]) == Success(3.0)
    ensures Dot([1.0, 2.0], [1.0, 2.0, 3.0]) == Failure(LengthMismatch)
  {
    assert [3.0, 4.0][1..] == [4.0] && [1.0, 2.0][1..] == [2.0];
    PairwiseSum3([1.0, 1.0, 1.0], [1.0, 1.0, 1.0]);
  }

  /** The tests' magnitudes: |(3, 4)| = 5 and |(0, 0)| = 0. */
  lemma MagnitudeExamples(m: Math)
    requires Lawful(m)
    ensures Magnitude(m, [3.0, 4.0]) == 5.0
    ensures Magnitude(m, [0.0, 0.0]) == 0.0
  {
    assert [3.0, 4.0][1..] == [4.0];
    assert SumSquares([3.0, 4.0]) == Square(5.0);
    SqrtOfSquare(m, 5.0);
    assert IsZero([0.0, 0.0]);
  }
}
