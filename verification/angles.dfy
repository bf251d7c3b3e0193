/** `angle_vectors`, `angle_between_coordinates` and
    `distance_between_coordinates`: the angular separation of two vectors or
    two coordinates, and the great-circle distance it spans. */
module Angles {
  import opened Reals
  import opened Errors
  import opened Transcendentals
  import opened Vectors
  import opened Rounding
  import opened Coordinates

  /** By Cauchy-Schwarz the cosine v.w / (|v||w|) of two non-zero vectors
      lies in [-1, 1]. */
  lemma CosineBound(m: Math, v: Vector, w: Vector)
    requires Lawful(m)
    requires |v| == |w|
    requires Magnitude(m, v) != 0.0 && Magnitude(m, w) != 0.0
    ensures -1.0 <= Cosine(m, v, w) <= 1.0
  {
    CauchySchwarz(v, w);
    NormalisedBound(Dot(v, w).value, SumSquares(v), SumSquares(w), Magnitude(m, v), Magnitude(m, w));
  }

  /** d / (mv mw): a dot product divided by the two lengths. */
  function Normalised(d: real, mv: real, mw: real): real
    requires mv != 0.0 && mw != 0.0
  {
    d / (mv * mw)
  }

  /** The arithmetic of the bound: (d)^2 <= sv.sw with sv = mv^2, sw = mw^2 and
      positive mv, mw gives |d| <= mv.mw. */
  lemma NormalisedBound(d: real, sv: real, sw: real, mv: real, mw: real)
    requires SchwarzBound(d, sv, sw)
    requires 0.0 < mv && 0.0 < mw
    requires Square(mv) == sv && Square(mw) == sw
    ensures -1.0 <= Normalised(d, mv, mw) <= 1.0
  {
    var n := mv * mw;
    PositiveProduct(mv, mw);
    SquareProduct(mv, mw);
    assert Square(d) <= Square(n);
    SquareMonotone(d, n);
    SquareNegate(d);
    SquareMonotone(-d, n);
    QuotientBound(d, n);
  }

  /** `angle_vectors(v, w)`: fails exactly on a length mismatch; is 0 when
      either vector is zero; otherwise `acos` of the cosine rounded to five
      places, which the rounding keeps inside acos's domain, so the angle
      lies in [0, pi]. */
  function AngleVectors(m: Math, v: Vector, w: Vector): (r: Result<real>)
    requires Lawful(m)
    ensures r.Failure? <==> |v| != |w|
    ensures r.Failure? ==> r.error == LengthMismatch
    ensures r.Success? && (IsZero(v) || IsZero(w)) ==> r.value == 0.0
    ensures r.Success? ==> 0.0 <= r.value <= m.pi
    ensures v == w ==> r == Success(0.0)
  {
    if |v| != |w| then Failure(LengthMismatch)
    else if Magnitude(m, v) == 0.0 || Magnitude(m, w) == 0.0 then Success(0.0)
    else
      CosineBound(m, v, w);
      SelfCosineWhenEqual(m, v, w);
      Success(Acos(m, Round5(Cosine(m, v, w))))
  }

  /** The angle does not depend on the order of the vectors. */
  lemma AngleVectorsSymmetric(m: Math, v: Vector, w: Vector)
    requires Lawful(m)
    ensures AngleVectors(m, v, w) == AngleVectors(m, w, v)
  {
    DotSymmetric(v, w);
    if |v| == |w| && Magnitude(m, v) != 0.0 && Magnitude(m, w) != 0.0 {
      NormalisedSymmetric(Dot(v, w).value, Magnitude(m, v), Magnitude(m, w));
    }
  }

  lemma NormalisedSymmetric(d: real, mv: real, mw: real)
    requires mv != 0.0 && mw != 0.0
    ensures Normalised(d, mv, mw) == Normalised(d, mw, mv)
  {
    assert mv * mw == mw * mv;
  }

  /** The cosine of the angle between two non-zero vectors of one length:
      v.w / (|v||w|). */
  function Cosine(m: Math, v: Vector, w: Vector): real
    requires Lawful(m)
    requires |v| == |w|
    requires Magnitude(m, v) != 0.0 && Magnitude(m, w) != 0.0
  {
    Normalised(Dot(v, w).value, Magnitude(m, v), Magnitude(m, w))
  }

  /** The cosine of a non-zero vector with itself is exactly 1, and rounding
      keeps it so. */
  lemma SelfCosine(m: Math, v: Vector)
    requires Lawful(m)
    requires Magnitude(m, v) != 0.0
    ensures Round5(Cosine(m, v, v)) == 1.0
  {
    SelfQuotient(Magnitude(m, v));
    assert Dot(v, v).value == Square(Magnitude(m, v));
    assert Cosine(m, v, v) == 1.0;
    Round5Integer(1);
  }

  lemma SelfCosineWhenEqual(m: Math, v: Vector, w: Vector)
    requires Lawful(m)
    requires |v| == |w|
    requires Magnitude(m, v) != 0.0 && Magnitude(m, w) != 0.0
    ensures v == w ==> Round5(Cosine(m, v, w)) == 1.0
  {
    if v == w {
      SelfCosine(m, v);
    }
  }

  /** Reflecting both vectors leaves the angle between them unchanged. */
  lemma AngleVectorsMirror(m: Math, v: Vector, w: Vector)
    requires Lawful(m)
    requires |v| == 3 && |w| == 3
    ensures AngleVectors(m, Mirror(v), Mirror(w)) == AngleVectors(m, v, w)
  {
    MirrorDot(v, w);
    MirrorLength(v);
    MirrorLength(w);
    assert Magnitude(m, Mirror(v)) == Magnitude(m, v);
    assert Magnitude(m, Mirror(w)) == Magnitude(m, w);
    assert Dot(Mirror(v), Mirror(w)) == Dot(v, w);
    if Magnitude(m, v) != 0.0 && Magnitude(m, w) != 0.0 {
      assert Cosine(m, Mirror(v), Mirror(w)) == Cosine(m, v, w);
    }
  }

  /** Perpendicular non-zero vectors are pi/2 apart: the cosine is 0, which
      the rounding keeps. */
  lemma AngleVectorsPerpendicular(m: Math, v: Vector, w: Vector)
    requires Lawful(m)
    requires !IsZero(v) && !IsZero(w)
    requires Dot(v, w) == Success(0.0)
    ensures AngleVectors(m, v, w) == Success(m.pi / 2.0)
  {
    assert Normalised(0.0, Magnitude(m, v), Magnitude(m, w)) == 0.0;
    Round5Integer(0);
  }

  /** A non-zero vector and its opposite are pi apart: the cosine is exactly
      -1, which the rounding keeps. */
  lemma AngleVectorsOpposite(m: Math, v: Vector)
    requires Lawful(m)
    requires !IsZero(v)
    ensures AngleVectors(m, v, Negate(v)) == Success(m.pi)
  {
    NegateDot(v);
    NegateLength(v);
    PairwiseSumSymmetric(Negate(v), v);
    var mv := Magnitude(m, v);
    assert Magnitude(m, Negate(v)) == mv;
    SelfQuotient(mv);
    assert Normalised(-Square(mv), mv, mv) == -1.0;
    Round5Integer(-1);
  }

  /** The tests' right angle between x-hat and y-hat, and straight angle between x-hat
      and -x-hat. */
  lemma AngleVectorsExamples(m: Math)
    requires Lawful(m)
    ensures AngleVectors(m, [1.0, 0.0, 0.0], [0.0, 1.0, 0.0]) == Success(m.pi / 2.0)
    ensures AngleVectors(m, [1.0, 0.0, 0.0], [-1.0, 0.0, 0.0]) == Success(m.pi)
  {
    var x, y := [1.0, 0.0, 0.0], [0.0, 1.0, 0.0];
    assert x[0] != 0.0 && y[1] != 0.0;
    PairwiseSum3(y, x);
    AngleVectorsPerpendicular(m, x, y);
    assert Negate(x) == [-1.0, 0.0, 0.0];
    AngleVectorsOpposite(m, x);
  }

  /** `angle_between_coordinates`: fails exactly when a coordinate is out of
      range (the first point's error first); otherwise an angle in [0, pi]. */
  function AngleBetweenCoordinates(m: Math, lat1: real, long1: real, lat2: real, long2: real): (r: Result<real>)
    requires Lawful(m)
    ensures r.Failure? <==> !ValidPair(lat1, long1, lat2, long2)
    ensures r.Failure? ==> r.error == PairError(lat1, long1, lat2, long2)
    ensures r.Success? ==> 0.0 <= r.value <= m.pi
  {
    var u :- ToVector(m, lat1, long1);
    var v :- ToVector(m, lat2, long2);
    AngleVectors(m, u, v)
  }

  /** `distance_between_coordinates`: the angle times R, so fails exactly as
      the angle does and otherwise lies in [0, pi R], half a great circle. */
  function DistanceBetweenCoordinates(m: Math, lat1: real, long1: real, lat2: real, long2: real): (r: Result<real>)
    requires Lawful(m)
    ensures r.Failure? <==> !ValidPair(lat1, long1, lat2, long2)
    ensures r.Failure? ==> r.error == PairError(lat1, long1, lat2, long2)
    ensures r.Success? ==> 0.0 <= r.value <= m.pi * R
  {
    var angle :- AngleBetweenCoordinates(m, lat1, long1, lat2, long2);
    Success(angle * R)
  }

  /** A point is at distance 0 from itself. */
  lemma DistanceSamePoint(m: Math, lat: real, long: real)
    requires Lawful(m)
    requires ValidCoordinate(lat, long)
    ensures DistanceBetweenCoordinates(m, lat, long, lat, long) == Success(0.0)
  {
    assert AngleVectors(m, ToVector(m, lat, long).value, ToVector(m, lat, long).value) == Success(0.0);
  }

  /** Distance is symmetric between two valid points. */
  lemma DistanceSymmetric(m: Math, lat1: real, long1: real, lat2: real, long2: real)
    requires Lawful(m)
    requires ValidPair(lat1, long1, lat2, long2)
    ensures DistanceBetweenCoordinates(m, lat1, long1, lat2, long2)
         == DistanceBetweenCoordinates(m, lat2, long2, lat1, long1)
  {
    AngleVectorsSymmetric(m, ToVector(m, lat1, long1).value, ToVector(m, lat2, long2).value);
  }

  /** A quarter of the equator, from (0, 0) to (0, 90), is pi/2 R (the
      tests' 10007.54 km). */
  lemma DistanceQuarterEquator(m: Math)
    requires Lawful(m)
    ensures DistanceBetweenCoordinates(m, 0.0, 0.0, 0.0, 90.0) == Success(m.pi / 2.0 * R)
  {
    ToVectorExamples(m, 0.0);
    var x, y := [R, 0.0, 0.0], [0.0, R, 0.0];
    assert x[0] != 0.0 && y[1] != 0.0;
    PairwiseSum3(y, x);
    AngleVectorsPerpendicular(m, x, y);
  }

  /** Half of the equator, from (0, 0) to the antipode (0, 180), is pi R (the
      tests' 20015.09 km). */
  lemma DistanceHalfEquator(m: Math)
    requires Lawful(m)
    ensures DistanceBetweenCoordinates(m, 0.0, 0.0, 0.0, 180.0) == Success(m.pi * R)
  {
    ToVectorExamples(m, 0.0);
    var x := [R, 0.0, 0.0];
    assert x[0] != 0.0;
    assert Negate(x) == [-R, 0.0, 0.0];
    AngleVectorsOpposite(m, x);
  }
}
