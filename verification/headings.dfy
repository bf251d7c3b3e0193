/** `direction_between_coordinates` and `bearing_between_coordinates`: the
    direction of travel from one point of the sphere toward another, as a
    tangent vector, and the bearing of that direction measured from north. */
module Headings {
  import opened Reals
  import opened Errors
  import opened Transcendentals
  import opened Vectors
  import opened Coordinates
  import opened Angles

  /** (v x t) x v, the double cross product both operations build: the part
      of t perpendicular to v, scaled by |v|^2. It is tangent to the sphere at
      v and never points away from t. */
  function Tangent(v: Vector, toward: Vector): (r: Vector)
    requires |v| == 3 && |toward| == 3
    ensures |r| == 3
    ensures PairwiseSum(r, v) == 0.0
    ensures PairwiseSum(r, toward) == SumSquares(Cross(v, toward).value)
  {
    var c := Cross(v, toward).value;
    TripleProduct(c, v, toward);
    PairwiseSumSelf(c);
    Cross(c, v).value
  }

  /** On the sphere of radius R, |(v x t) x v| = R |v x t|, because v x t
      is perpendicular to v. */
  lemma TangentMagnitude(v: Vector, toward: Vector)
    requires |v| == 3 && |toward| == 3
    requires SumSquares(v) == Square(R)
    ensures SumSquares(Tangent(v, toward)) == Square(R) * SumSquares(Cross(v, toward).value)
  {
    var c := Cross(v, toward).value;
    CrossOfPerpendicular(c, v);
  }

  /** For a perpendicular to b and |b| = R, |a x b| = R |a|. */
  lemma CrossOfPerpendicular(a: Vector, b: Vector)
    requires |a| == 3 && |b| == 3
    requires PairwiseSum(a, b) == 0.0
    requires SumSquares(b) == Square(R)
    ensures SumSquares(Cross(a, b).value) == Square(R) * SumSquares(a)
  {
    var sa, sb, sc, d := Lagrange(a, b);
    assert Square(d) == Square(0.0) == 0.0;
    ProductCongruence(sa, SumSquares(a), sb, Square(R));
  }

  /** The north tangent (v x z-hat) x v never points south. */
  lemma NorthTangent(v: Vector)
    requires |v| == 3
    ensures 0.0 <= Tangent(v, Up)[2]
  {
    var n := Tangent(v, Up);
    PairwiseSum3(n, Up);
  }

  /** On the sphere of radius R the tangent toward w is shorter than 1 exactly
      when R^2 |v x w|^2 < 1, that is, when w is nearly v or nearly -v. */
  lemma DirectionGuard(m: Math, v: Vector, w: Vector)
    requires Lawful(m)
    requires |v| == 3 && |w| == 3
    requires SumSquares(v) == Square(R)
    ensures Magnitude(m, Tangent(v, w)) < 1.0 <==> Square(R) * SumSquares(Cross(v, w).value) < 1.0
  {
    TangentMagnitude(v, w);
    UnitSquare(Magnitude(m, Tangent(v, w)));
  }

  /** `direction_between_coordinates`: fails exactly when a coordinate is out
      of range (the first point's error first). Otherwise it is tangent to
      the sphere at the first point; when the two points are far enough
      apart for the tangent toward the second point to reach length 1, it
      is that tangent (and does not point away from the second point),
      otherwise it falls back to the north tangent. */
  function DirectionBetweenCoordinates(m: Math, lat1: real, long1: real, lat2: real, long2: real): (r: Result<Vector>)
    requires Lawful(m)
    ensures r.Failure? <==> !ValidPair(lat1, long1, lat2, long2)
    ensures r.Failure? ==> r.error == PairError(lat1, long1, lat2, long2)
    ensures r.Success? ==> |r.value| == 3 && PairwiseSum(r.value, ToVector(m, lat1, long1).value) == 0.0
    ensures r.Success? ==>
      var v, w := ToVector(m, lat1, long1).value, ToVector(m, lat2, long2).value;
      var apart := 1.0 <= Square(R) * SumSquares(Cross(v, w).value);
      && (apart ==> r.value == Tangent(v, w) && 0.0 <= PairwiseSum(r.value, w))
      && (!apart ==> r.value == Tangent(v, Up) && 0.0 <= r.value[2])
  {
    var v :- ToVector(m, lat1, long1);
    var w :- ToVector(m, lat2, long2);
    var result := Tangent(v, w);
    DirectionGuard(m, v, w);
    NorthTangent(v);
    if Magnitude(m, result) < 1.0 then Success(Tangent(v, Up)) else Success(result)
  }

  /** The angle, in degrees, between the direction of travel and north at
      the first point: the bearing before the longitude rule. */
  function Heading(m: Math, lat1: real, long1: real, lat2: real, long2: real): (r: Result<real>)
    requires Lawful(m)
    ensures r.Failure? <==> !ValidPair(lat1, long1, lat2, long2)
    ensures r.Failure? ==> r.error == PairError(lat1, long1, lat2, long2)
    ensures r.Success? ==> 0.0 <= r.value <= 180.0
  {
    var v :- ToVector(m, lat1, long1);
    var north := Tangent(v, Up);
    var w :- DirectionBetweenCoordinates(m, lat1, long1, lat2, long2);
    Success(Degrees(m, AngleVectors(m, w, north).value))
  }

  /** `bearing_between_coordinates`: fails exactly as the direction does;
      otherwise the heading, mirrored to 360 minus the heading exactly when
      the second longitude is smaller than the first. The bearing lies in
      [0, 360] (360 itself is reached, when the heading is 0 and the rule
      mirrors it), in [180, 360] when the rule applies and in [0, 180]
      otherwise. */
  function BearingBetweenCoordinates(m: Math, lat1: real, long1: real, lat2: real, long2: real): (r: Result<real>)
    requires Lawful(m)
    ensures r.Failure? <==> !ValidPair(lat1, long1, lat2, long2)
    ensures r.Failure? ==> r.error == PairError(lat1, long1, lat2, long2)
    ensures r.Success? ==> 0.0 <= r.value <= 360.0
    ensures r.Success? && long2 < long1 ==> 180.0 <= r.value && r.value == 360.0 - Heading(m, lat1, long1, lat2, long2).value
    ensures r.Success? && long1 <= long2 ==> r.value <= 180.0 && r.value == Heading(m, lat1, long1, lat2, long2).value
  {
    var bearing :- Heading(m, lat1, long1, lat2, long2);
    if long2 < long1 then Success(360.0 - bearing) else Success(bearing)
  }

  /** From a point to itself the tangent vanishes and the direction falls
      back to north. */
  lemma DirectionSamePoint(m: Math, lat: real, long: real)
    requires Lawful(m)
    requires ValidCoordinate(lat, long)
    ensures DirectionBetweenCoordinates(m, lat, long, lat, long) == Success(Tangent(ToVector(m, lat, long).value, Up))
  {
    var v := ToVector(m, lat, long).value;
    CrossSelf(v);
    SumSquares3([0.0, 0.0, 0.0]);
  }

  /** The tests' direction from (0, 0) to itself: north, (0, 0, R^2). */
  lemma DirectionOriginToItself(m: Math)
    requires Lawful(m)
    ensures DirectionBetweenCoordinates(m, 0.0, 0.0, 0.0, 0.0) == Success([0.0, 0.0, R * R])
  {
    DirectionSamePoint(m, 0.0, 0.0);
    ToVectorExamples(m, 0.0);
    NorthAtOrigin();
  }

  /** The tests' direction from (0, 0) toward (0, 90): (0, R^3, 0), due east. */
  lemma DirectionEast(m: Math)
    requires Lawful(m)
    ensures DirectionBetweenCoordinates(m, 0.0, 0.0, 0.0, 90.0) == Success([0.0, R * R * R, 0.0])
  {
    ToVectorExamples(m, 0.0);
    EastAtOrigin();
  }

  /** At (0, 0) the tangent toward (0, 90) is (0, R^3, 0), far longer than 1. */
  lemma EastAtOrigin()
    ensures Tangent([R, 0.0, 0.0], [0.0, R, 0.0]) == [0.0, R * R * R, 0.0]
    ensures 1.0 <= Square(R) * SumSquares(Cross([R, 0.0, 0.0], [0.0, R, 0.0]).value)
  {
    var x, y, k := [R, 0.0, 0.0], [0.0, R, 0.0], [0.0, 0.0, R * R];
    assert Cross(x, y).value == k;
    SumSquares3(k);
  }

  /** The tests' direction from (0, 0) toward the antipode (0, 180): the
      tangent vanishes, so north, (0, 0, R^2). */
  lemma DirectionAntipode(m: Math)
    requires Lawful(m)
    ensures DirectionBetweenCoordinates(m, 0.0, 0.0, 0.0, 180.0) == Success([0.0, 0.0, R * R])
  {
    ToVectorExamples(m, 0.0);
    NorthAtOrigin();
    AntipodeAtOrigin();
  }

  /** At (0, 0) the tangent toward (0, 180) vanishes. */
  lemma AntipodeAtOrigin()
    ensures Square(R) * SumSquares(Cross([R, 0.0, 0.0], [-R, 0.0, 0.0]).value) < 1.0
  {
    assert Negate([R, 0.0, 0.0]) == [-R, 0.0, 0.0];
    CrossAntiparallel([R, 0.0, 0.0]);
    SumSquares3([0.0, 0.0, 0.0]);
  }

  /** From a point to itself the bearing is 0: the direction is north, and
      north is 0 degrees from itself. */
  lemma BearingSamePoint(m: Math, lat: real, long: real)
    requires Lawful(m)
    requires ValidCoordinate(lat, long)
    ensures BearingBetweenCoordinates(m, lat, long, lat, long) == Success(0.0)
  {
    var v := ToVector(m, lat, long).value;
    var n := Tangent(v, Up);
    DirectionSamePoint(m, lat, long);
    HeadingOf(m, lat, long, lat, long, v, n);
    assert AngleVectors(m, n, n) == Success(0.0);
    assert Degrees(m, 0.0) == 0.0;
  }

  /** The heading of a valid pair, read off its two ingredients: the
      direction of travel and the first point. */
  lemma HeadingOf(m: Math, lat1: real, long1: real, lat2: real, long2: real, v: Vector, d: Vector)
    requires Lawful(m)
    requires ToVector(m, lat1, long1) == Success(v)
    requires DirectionBetweenCoordinates(m, lat1, long1, lat2, long2) == Success(d)
    ensures Heading(m, lat1, long1, lat2, long2) == Success(Degrees(m, AngleVectors(m, d, Tangent(v, Up)).value))
  {
  }

  /** The tests' bearing due east, from (0, 0) toward (0, 90): 90. */
  lemma BearingEast(m: Math)
    requires Lawful(m)
    ensures BearingBetweenCoordinates(m, 0.0, 0.0, 0.0, 90.0) == Success(90.0)
  {
    RightAngleDegrees(m);
    DirectionEast(m);
    ToVectorExamples(m, 0.0);
    NorthAtOrigin();
    EastOfNorth(m);
    BearingOf(m, 0.0, 0.0, 0.0, 90.0, [R, 0.0, 0.0], [0.0, R * R * R, 0.0], m.pi / 2.0);
  }

  /** At (0, 0), east (0, R^3, 0) is a right angle from north (0, 0, R^2). */
  lemma EastOfNorth(m: Math)
    requires Lawful(m)
    ensures AngleVectors(m, [0.0, R * R * R, 0.0], [0.0, 0.0, R * R]) == Success(m.pi / 2.0)
  {
    var e, n := [0.0, R * R * R, 0.0], [0.0, 0.0, R * R];
    assert e[1] != 0.0 && n[2] != 0.0;
    PairwiseSum3(n, e);
    AngleVectorsPerpendicular(m, e, n);
  }

  /** The bearing of a valid pair, read off the angle between the direction
      of travel and north. */
  lemma BearingOf(m: Math, lat1: real, long1: real, lat2: real, long2: real, v: Vector, d: Vector, a: real)
    requires Lawful(m)
    requires ToVector(m, lat1, long1) == Success(v)
    requires DirectionBetweenCoordinates(m, lat1, long1, lat2, long2) == Success(d)
    requires AngleVectors(m, d, Tangent(v, Up)) == Success(a)
    ensures BearingBetweenCoordinates(m, lat1, long1, lat2, long2)
         == Success(if long2 < long1 then 360.0 - Degrees(m, a) else Degrees(m, a))
  {
    HeadingOf(m, lat1, long1, lat2, long2, v, d);
  }

  lemma RightAngleDegrees(m: Math)
    requires Lawful(m)
    ensures Degrees(m, m.pi / 2.0) == 90.0
  {
    DegreesOfRadians(m, 90.0);
    assert Radians(m, 90.0) == m.pi / 2.0;
  }

  /** The tests' bearing toward the antipode, from (0, 0) toward (0, 180):
      the fallback points north, so 0. */
  lemma BearingAntipode(m: Math)
    requires Lawful(m)
    ensures BearingBetweenCoordinates(m, 0.0, 0.0, 0.0, 180.0) == Success(0.0)
  {
    DirectionAntipode(m);
    ToVectorExamples(m, 0.0);
    var x, n := [R, 0.0, 0.0], [0.0, 0.0, R * R];
    NorthAtOrigin();
    HeadingOf(m, 0.0, 0.0, 0.0, 180.0, x, n);
    assert AngleVectors(m, n, n) == Success(0.0);
    assert Degrees(m, 0.0) == 0.0;
  }

  /** At (0, 0) north is (0, 0, R^2). */
  lemma NorthAtOrigin()
    ensures Tangent([R, 0.0, 0.0], Up) == [0.0, 0.0, R * R]
  {
    assert Cross([R, 0.0, 0.0], Up).value == [0.0, -R, 0.0];
  }

  /** The longitude rule reaches 360 itself: from (0, 180) toward its
      antipode (0, 0) the direction falls back to north, the heading is 0,
      and the smaller second longitude turns it into 360 - 0. */
  lemma BearingFullTurn(m: Math)
    requires Lawful(m)
    ensures BearingBetweenCoordinates(m, 0.0, 180.0, 0.0, 0.0) == Success(360.0)
  {
    DirectionAntimeridian(m);
    ToVectorExamples(m, 0.0);
    var w, n := [-R, 0.0, 0.0], [0.0, 0.0, R * R];
    NorthAtAntimeridian();
    assert AngleVectors(m, n, n) == Success(0.0);
    BearingOf(m, 0.0, 180.0, 0.0, 0.0, w, n, 0.0);
    assert Degrees(m, 0.0) == 0.0;
  }

  /** From (0, 180) toward (0, 0) the direction is north, (0, 0, R^2). */
  lemma DirectionAntimeridian(m: Math)
    requires Lawful(m)
    ensures DirectionBetweenCoordinates(m, 0.0, 180.0, 0.0, 0.0) == Success([0.0, 0.0, R * R])
  {
    ToVectorExamples(m, 0.0);
    NorthAtAntimeridian();
    AntipodeAtAntimeridian();
  }

  /** At (0, 180) north is (0, 0, R^2) too. */
  lemma NorthAtAntimeridian()
    ensures Tangent([-R, 0.0, 0.0], Up) == [0.0, 0.0, R * R]
  {
    assert Cross([-R, 0.0, 0.0], Up).value == [0.0, R, 0.0];
  }

  /** At (0, 180) the tangent toward (0, 0) vanishes. */
  lemma AntipodeAtAntimeridian()
    ensures Square(R) * SumSquares(Cross([-R, 0.0, 0.0], [R, 0.0, 0.0]).value) < 1.0
  {
    assert Negate([-R, 0.0, 0.0]) == [R, 0.0, 0.0];
    CrossAntiparallel([-R, 0.0, 0.0]);
    SumSquares3([0.0, 0.0, 0.0]);
  }

  /** With exact reals, north vanishes at the pole: cos of pi/2 is 0, so the
      north tangent is the zero vector and `angle_vectors` returns 0 for it.
      Every bearing from the north pole is therefore 0, or 360 when the
      longitude rule applies. */
  lemma BearingFromPole(m: Math, long1: real, lat2: real, long2: real)
    requires Lawful(m)
    requires ValidLongitude(long1) && ValidCoordinate(lat2, long2)
    ensures BearingBetweenCoordinates(m, 90.0, long1, lat2, long2) == Success(if long2 < long1 then 360.0 else 0.0)
  {
    ToVectorExamples(m, long1);
    var p := [0.0, 0.0, R];
    NorthAtPole();
    var d := DirectionBetweenCoordinates(m, 90.0, long1, lat2, long2).value;
    assert IsZero(Tangent(p, Up));
    BearingOf(m, 90.0, long1, lat2, long2, p, d, 0.0);
    assert Degrees(m, 0.0) == 0.0;
  }

  /** At the north pole the north tangent is the zero vector. */
  lemma NorthAtPole()
    ensures Tangent([0.0, 0.0, R], Up) == [0.0, 0.0, 0.0]
  {
    assert Cross([0.0, 0.0, R], Up).value == [0.0, 0.0, 0.0];
  }

  /** The double cross product commutes with the reflection: the two sign
      flips of the improper reflection cancel. */
  lemma TangentMirror(v: Vector, toward: Vector)
    requires |v| == 3 && |toward| == 3
    ensures Tangent(Mirror(v), Mirror(toward)) == Mirror(Tangent(v, toward))
  {
    CrossMirror(v, toward);
    CrossNegatedMirror(Cross(v, toward).value, v);
  }

  /** Negating both longitudes reflects the direction of travel. */
  lemma DirectionMirror(m: Math, lat1: real, long1: real, lat2: real, long2: real)
    requires Lawful(m)
    requires ValidPair(lat1, long1, lat2, long2)
    ensures DirectionBetweenCoordinates(m, lat1, -long1, lat2, -long2)
         == Success(Mirror(DirectionBetweenCoordinates(m, lat1, long1, lat2, long2).value))
  {
    var v, w := ToVector(m, lat1, long1).value, ToVector(m, lat2, long2).value;
    ToVectorMirror(m, lat1, long1);
    ToVectorMirror(m, lat2, long2);
    MirrorUp();
    TangentMirror(v, w);
    TangentMirror(v, Up);
    MirrorLength(Tangent(v, w));
    assert Magnitude(m, Tangent(Mirror(v), Mirror(w))) == Magnitude(m, Tangent(v, w));
  }

  /** Negating both longitudes leaves the heading unchanged. */
  lemma HeadingMirror(m: Math, lat1: real, long1: real, lat2: real, long2: real)
    requires Lawful(m)
    requires ValidPair(lat1, long1, lat2, long2)
    ensures Heading(m, lat1, -long1, lat2, -long2) == Heading(m, lat1, long1, lat2, long2)
  {
    var v := ToVector(m, lat1, long1).value;
    var d := DirectionBetweenCoordinates(m, lat1, long1, lat2, long2).value;
    ToVectorMirror(m, lat1, long1);
    DirectionMirror(m, lat1, long1, lat2, long2);
    MirrorUp();
    TangentMirror(v, Up);
    AngleVectorsMirror(m, d, Tangent(v, Up));
    HeadingOf(m, lat1, long1, lat2, long2, v, d);
    HeadingOf(m, lat1, -long1, lat2, -long2, Mirror(v), Mirror(d));
  }

  /** The mirror rule seen from outside: negating both longitudes of two
      points of different longitude turns the bearing b into 360 - b, and
      keeps it when the longitudes are equal. The tests' pair (45, 0) to
      (45, 90) and (45, 0) to (45, -90), with bearings 54.74 and 305.26, is
      an instance. */
  lemma BearingMirror(m: Math, lat1: real, long1: real, lat2: real, long2: real)
    requires Lawful(m)
    requires ValidPair(lat1, long1, lat2, long2)
    ensures long1 != long2 ==>
      BearingBetweenCoordinates(m, lat1, -long1, lat2, -long2)
      == Success(360.0 - BearingBetweenCoordinates(m, lat1, long1, lat2, long2).value)
    ensures long1 == long2 ==>
      BearingBetweenCoordinates(m, lat1, -long1, lat2, -long2)
      == BearingBetweenCoordinates(m, lat1, long1, lat2, long2)
  {
    ToVectorMirror(m, lat1, long1);
    ToVectorMirror(m, lat2, long2);
    HeadingMirror(m, lat1, long1, lat2, long2);
    var h := Heading(m, lat1, long1, lat2, long2).value;
    var b := BearingBetweenCoordinates(m, lat1, long1, lat2, long2).value;
    var bm := BearingBetweenCoordinates(m, lat1, -long1, lat2, -long2).value;
    MirrorRule(long1, long2, h, b, bm);
  }

  /** The longitude rule under negated longitudes: for different longitudes
      exactly one of the two pairs is mirrored to 360 - h. */
  lemma MirrorRule(long1: real, long2: real, h: real, b: real, bm: real)
    requires b == (if long2 < long1 then 360.0 - h else h)
    requires bm == (if -long2 < -long1 then 360.0 - h else h)
    ensures long1 != long2 ==> bm == 360.0 - b
    ensures long1 == long2 ==> bm == b
  {
  }
}
