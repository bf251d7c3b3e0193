/** `to_vector` and the constant `R`: a geographic coordinate in degrees,
    range-checked, mapped to a point on the sphere of radius R. */
module Coordinates {
  import opened Reals
  import opened Errors
  import opened Transcendentals
  import opened Vectors

  /** Mean radius of the Earth, in kilometres. */
  const R: real := 6371.0

  predicate ValidLatitude(lat: real) {
    -90.0 <= lat <= 90.0
  }

  predicate ValidLongitude(long: real) {
    -180.0 <= long <= 180.0
  }

  predicate ValidCoordinate(lat: real, long: real) {
    ValidLatitude(lat) && ValidLongitude(long)
  }

  /** The error `to_vector` reports for an invalid coordinate: latitude is
      checked first. */
  function RangeError(lat: real, long: real): GeoError
    requires !ValidCoordinate(lat, long)
  {
    if !ValidLatitude(lat) then OutOfRange(Latitude) else OutOfRange(Longitude)
  }

  /** Both coordinates of a two-point operation are valid. */
  predicate ValidPair(lat1: real, long1: real, lat2: real, long2: real) {
    ValidCoordinate(lat1, long1) && ValidCoordinate(lat2, long2)
  }

  /** The error a two-point operation reports: the first point is converted
      first, so its error wins. */
  function PairError(lat1: real, long1: real, lat2: real, long2: real): GeoError
    requires !ValidPair(lat1, long1, lat2, long2)
  {
    if !ValidCoordinate(lat1, long1) then RangeError(lat1, long1) else RangeError(lat2, long2)
  }

  /** `to_vector(lat, long)`: fails exactly for a coordinate out of range,
      latitude first, with both boundaries accepted; otherwise a 3-vector whose
      length is R, i.e. a point on the Earth's surface. */
  function ToVector(m: Math, lat: real, long: real): (r: Result<Vector>)
    requires Lawful(m)
    ensures r.Failure? <==> !ValidCoordinate(lat, long)
    ensures r.Failure? ==> r.error == RangeError(lat, long)
    ensures r.Success? ==> |r.value| == 3
    ensures r.Success? ==> SumSquares(r.value) == Square(R) && Magnitude(m, r.value) == R
  {
    if lat < -90.0 || lat > 90.0 then Failure(OutOfRange(Latitude))
    else if long < -180.0 || long > 180.0 then Failure(OutOfRange(Longitude))
    else
      var phi, theta := Radians(m, lat), Radians(m, long);
      OnSphere(m, phi, theta);
      Success(SpherePoint(m, phi, theta))
  }

  /** The point of the sphere of radius R at latitude phi and longitude
      theta, both in radians. */
  function SpherePoint(m: Math, phi: real, theta: real): Vector {
    [R * m.cos(phi) * m.cos(theta), R * m.cos(phi) * m.sin(theta), R * m.sin(phi)]
  }

  /** The point built from latitude phi and longitude theta (in radians) is
      at distance R from the centre. */
  lemma OnSphere(m: Math, phi: real, theta: real)
    requires Lawful(m)
    ensures SumSquares(SpherePoint(m, phi, theta)) == Square(R)
    ensures Magnitude(m, SpherePoint(m, phi, theta)) == R
  {
    assert Square(m.sin(phi)) + Square(m.cos(phi)) == 1.0;
    assert Square(m.sin(theta)) + Square(m.cos(theta)) == 1.0;
    SpherePointLength(m, phi, theta);
    SqrtOfSquare(m, R);
  }

  lemma SpherePointLength(m: Math, phi: real, theta: real)
    requires Square(m.sin(phi)) + Square(m.cos(phi)) == 1.0
    requires Square(m.sin(theta)) + Square(m.cos(theta)) == 1.0
    ensures SumSquares(SpherePoint(m, phi, theta)) == Square(R)
  {
    SumSquares3(SpherePoint(m, phi, theta));
    SphereIdentity(m.cos(phi), m.sin(phi), m.cos(theta), m.sin(theta));
  }

  /** R^2c1^2c2^2 + R^2c1^2s2^2 + R^2s1^2 = R^2 when c1^2 + s1^2 = c2^2 + s2^2 = 1. */
  lemma SphereIdentity(c1: real, s1: real, c2: real, s2: real)
    requires Square(s1) + Square(c1) == 1.0
    requires Square(s2) + Square(c2) == 1.0
    ensures Square(R * c1 * c2) + Square(R * c1 * s2) + Square(R * s1) == Square(R)
  {
    var k := Square(R) * Square(c1);
    SquareProduct(R * c1, c2);
    SquareProduct(R * c1, s2);
    SquareProduct(R, c1);
    SquareProduct(R, s1);
    assert Square(R * c1 * c2) + Square(R * c1 * s2) == k * (Square(c2) + Square(s2));
    assert Square(R * c1 * c2) + Square(R * c1 * s2) == k;
    assert k + Square(R) * Square(s1) == Square(R) * (Square(c1) + Square(s1));
  }

  /** The tests' reference points: (0, 0) is on the x axis, (0, 90) on the y
      axis, (0, 180) on the negative x axis, and latitude 90 is the north pole
      whatever the longitude. */
  lemma ToVectorExamples(m: Math, long: real)
    requires Lawful(m)
    requires ValidLongitude(long)
    ensures ToVector(m, 0.0, 0.0) == Success([R, 0.0, 0.0])
    ensures ToVector(m, 0.0, 90.0) == Success([0.0, R, 0.0])
    ensures ToVector(m, 0.0, 180.0) == Success([-R, 0.0, 0.0])
    ensures ToVector(m, 90.0, long) == Success([0.0, 0.0, R])
  {
    assert Radians(m, 0.0) == 0.0;
    assert Radians(m, 90.0) == m.pi / 2.0;
    assert Radians(m, 180.0) == m.pi;
    CosWhereSinIsOne(m, m.pi / 2.0);
    SinWhereCosIsMinusOne(m, m.pi);
    var v := ToVector(m, 90.0, long).value;
    assert v[0] == 0.0 && v[1] == 0.0 && v[2] == R;
  }

  /** Both ends of the longitude range name the same meridian: at every
      valid latitude, longitudes -180 and 180 give one point. */
  lemma ToVectorAntimeridian(m: Math, lat: real)
    requires Lawful(m)
    requires ValidLatitude(lat)
    ensures ToVector(m, lat, -180.0) == ToVector(m, lat, 180.0)
    ensures ToVector(m, lat, 180.0).Success?
  {
    assert Radians(m, -180.0) == -m.pi;
    assert Radians(m, 180.0) == m.pi;
    SinWhereCosIsMinusOne(m, m.pi);
    assert m.sin(-m.pi) == m.sin(m.pi) && m.cos(-m.pi) == m.cos(m.pi);
  }

  /** Negating the longitude reflects the point in the plane of the prime
      meridian. */
  lemma ToVectorMirror(m: Math, lat: real, long: real)
    requires Lawful(m)
    requires ValidCoordinate(lat, long)
    ensures ValidCoordinate(lat, -long)
    ensures ToVector(m, lat, -long) == Success(Mirror(ToVector(m, lat, long).value))
  {
    var theta := Radians(m, long);
    NegatedRadians(m, long);
    assert m.sin(-theta) == -m.sin(theta) && m.cos(-theta) == m.cos(theta);
    SpherePointMirror(m, Radians(m, lat), theta);
  }

  /** Since sine is odd and cosine even, negating the longitude negates y. */
  lemma SpherePointMirror(m: Math, phi: real, theta: real)
    requires m.sin(-theta) == -m.sin(theta) && m.cos(-theta) == m.cos(theta)
    ensures SpherePoint(m, phi, -theta) == Mirror(SpherePoint(m, phi, theta))
  {
    var p, q := SpherePoint(m, phi, -theta), Mirror(SpherePoint(m, phi, theta));
    NegatedProduct(R * m.cos(phi), m.sin(theta));
    assert p[0] == q[0] && p[1] == q[1] && p[2] == q[2];
  }

  lemma NegatedRadians(m: Math, deg: real)
    ensures Radians(m, -deg) == -Radians(m, deg)
  {
  }
}
