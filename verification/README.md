# geo.py in Dafny

A model of `geo.py`, the geometry behind a small command-line tracker for the
International Space Station. The module works on the sphere of radius
R = 6371 km. It converts a latitude/longitude pair in degrees into a point in
Earth-centred coordinates (`to_vector`). From there it derives:

- the angle between two points and the great-circle distance between them;
- the direction of travel from one point toward another, as a tangent vector;
- the bearing of that direction, measured from north in degrees;
- the compass point (N, NE, …) nearest to a bearing.

Files and modules:

| file | module | what it holds |
|---|---|---|
| `errors.dfy` | `Errors` | the `ValueError`/`IndexError` cases as a `Result` type |
| `reals.dfy` | `Reals` | small facts of real arithmetic |
| `transcendentals.dfy` | `Transcendentals` | `math.sqrt`, `sin`, `cos`, `acos`, `pi` as a parameter; `radians` and `degrees` |
| `rounding.dfy` | `Rounding` | Python's `round`, half to even, to an integer and to five places |
| `vectors.dfy` | `Vectors` | `magnitude`, `dot_product`, `cross_product` and their algebra |
| `coordinates.dfy` | `Coordinates` | `R`, the coordinate range checks, `to_vector` |
| `angles.dfy` | `Angles` | `angle_vectors`, `angle_between_coordinates`, `distance_between_coordinates` |
| `headings.dfy` | `Headings` | `direction_between_coordinates`, `bearing_between_coordinates` |
| `cardinals.dfy` | `Cardinals` | `cardinal_from_angle` |

Python numbers are exact `real`s here. Tuples become `seq<real>`. Every
`raise` becomes a `Failure` carrying the error kind:

- `LengthMismatch` for `dot_product` and `angle_vectors`;
- `InvalidDimension` for `cross_product`;
- `OutOfRange(Latitude)` or `OutOfRange(Longitude)` for `to_vector`;
- `IndexOutOfRange` for the list lookup in `cardinal_from_angle`.

Operations that call `to_vector` propagate its failure. The first point is
converted first, so its error wins.

The transcendental functions are not computed. A `Math` value supplies them,
and the predicate `Lawful` lists the laws the proofs use:

- sqrt squares back;
- sin² + cos² = 1;
- sine is odd and cosine even;
- sin and cos take their usual values at 0, pi/2 and pi;
- acos(1) = 0, acos(0) = pi/2 and acos(−1) = pi;
- acos maps [-1, 1] into [0, pi];
- 3.14 < pi < 3.15.

Each of these laws is true of the real functions. `math.sqrt` and
`math.acos` raise outside their domains, so `Sqrt` and `Acos` require their
arguments to be in the domain. Part of what is proved is that `angle_vectors`
never leaves acos's domain. By Cauchy–Schwarz the cosine lies in [-1, 1], and
rounding to five places keeps it there.

Two points about ranges:

- geo.py gives no range for the bearing. The rule
  `if long2 < long1: bearing = 360 - bearing` is modelled as written, and the
  bearing lies in [0, 360]. 360 itself is reached, with heading 0 and
  `long2 < long1`: from (0, 180) toward (0, 0) the bearing is 360
  (`Headings.BearingFullTurn`). That stays inside the domain documented for
  `cardinal_from_angle`, which includes 360.
- `cardinal_from_angle` is documented for angles in [0, 360]. The code
  indexes a Python list, so it also accepts every angle in (-427.5, 382.5],
  through negative indexing and half-to-even rounding. It raises
  `IndexError` outside that range. The model follows the code. Below −22.5
  the negative indices count from the back of a list that ends in a second
  `'N'`, so the labels come out one sector off: −45 gives N and −90 gives NW
  (`Cardinals.CardinalSectorNegative`).

## Model

| member | source | states |
|---|---|---|
| `Vectors.SumSquares` | geo.py:13 | the sum of squares is never negative and is zero exactly for the zero vector |
| `Vectors.Magnitude` | geo.py:7-13 | the norm is non-negative, squares to the sum of squares, and is zero exactly for the zero vector |
| `Vectors.MagnitudeExamples` | test.py:10-11 | \|(3, 4)\| = 5 and \|(0, 0)\| = 0 |
| `Vectors.Dot` | geo.py:16-26 | fails exactly on a length mismatch; otherwise the sum of the pairwise products, which for a vector with itself is its sum of squares |
| `Vectors.DotSymmetric` | geo.py:24-26 | swapping the operands changes neither the failure nor the value |
| `Vectors.DotExamples` | test.py:14-16 | (1, 2)·(3, 4) = 11, (1, 1, 1)·(1, 1, 1) = 3, and operands of different lengths fail |
| `Vectors.CauchySchwarz` | geo.py:26 | (v·w)² <= \|v\|²\|w\|² for vectors of one length, proved by induction on the length |
| `Vectors.Cross` | geo.py:29-42 | fails exactly when an operand is not a 3-vector; otherwise a 3-vector perpendicular to both operands |
| `Vectors.CrossAntiCommutative` | geo.py:37-41 | w × v fails exactly when v × w does, and is its negation |
| `Vectors.CrossSelf` | geo.py:39-41 | v × v is the zero vector |
| `Vectors.CrossBasis` | test.py:19 | (1, 0, 0) × (0, 1, 0) = (0, 0, 1) |
| `Vectors.TripleProduct` | geo.py:39-41 | (a × v)·w = a·(v × w) |
| `Vectors.Lagrange` | geo.py:39-41 | Lagrange's identity \|a × b\|² = \|a\|²\|b\|² − (a·b)² |
| `Vectors.NegateDot` | geo.py:26 | (−v)·v = −\|v\|² for vectors of any length |
| `Vectors.NegateLength` | geo.py:13 | \|−v\|² = \|v\|² for vectors of any length |
| `Vectors.MirrorDot` | geo.py:26 | negating the second component of both operands keeps the dot product |
| `Vectors.MirrorLength` | geo.py:13 | negating the second component keeps the length |
| `Vectors.CrossMirror` | geo.py:39-41 | the cross product of two reflected vectors is the reflected cross product, negated |
| `Transcendentals.Sqrt` | geo.py:13 | no contract of its own: `math.sqrt` as the parameter's sqrt, with the precondition 0 <= x standing for the domain error Python raises below 0 |
| `Transcendentals.Acos` | geo.py:75 | no contract of its own: `math.acos` as the parameter's acos, with the precondition −1 <= x <= 1 standing for the domain error Python raises outside it |
| `Transcendentals.Radians` | geo.py:57-59 | no contract of its own: `math.radians`, deg · pi / 180; `Transcendentals.DegreesOfRadians` states that degrees undoes it |
| `Transcendentals.Degrees` | geo.py:139 | `math.degrees` maps [0, pi] into [0, 180] |
| `Transcendentals.DegreesOfRadians` | geo.py:57-59 | degrees undoes radians |
| `Rounding.RoundHalfEven` | geo.py:152 | `round(x)` is within one half of x, and even when exactly one half away |
| `Rounding.RoundHalfEvenUnique` | geo.py:152 | any integer with those two properties is `round(x)` |
| `Rounding.Round5` | geo.py:75 | `round(x, 5)` is within 0.000005 of x and keeps [-1, 1] inside [-1, 1] |
| `Rounding.Round5Integer` | geo.py:75 | whole numbers, in particular 1, 0 and −1, are left unchanged by `round(x, 5)` |
| `Coordinates.ToVector` | geo.py:45-60 | fails exactly for a latitude outside [-90, 90] or a longitude outside [-180, 180], latitude first; otherwise a 3-vector of length R |
| `Coordinates.SpherePoint` | geo.py:57-59 | no contract of its own: the three formulas R cos φ cos θ, R cos φ sin θ, R sin φ on angles already in radians; `Coordinates.OnSphere` states that the point lies on the sphere |
| `Coordinates.OnSphere` | geo.py:57-59 | the point built from any latitude and longitude in radians lies on the sphere of radius R |
| `Coordinates.ToVectorExamples` | test.py:24-27 | (0, 0) and (0, 90) map to (R, 0, 0) and (0, R, 0); latitude 90 maps to the pole (0, 0, R) whatever the longitude; and (0, 180) maps to (−R, 0, 0) |
| `Coordinates.ToVectorAntimeridian` | geo.py:55-59 | longitudes −180 and 180 are both accepted and give the same point at every valid latitude |
| `Coordinates.ToVectorMirror` | geo.py:57-59 | negating the longitude reflects the point through the plane y = 0 |
| `Angles.Cosine` | geo.py:75 | no contract of its own: the argument of `round`, v·w / (\|v\|\|w\|), defined only for non-zero vectors of one length; `Angles.CosineBound` states its range |
| `Angles.CosineBound` | geo.py:75 | the cosine v·w / (\|v\|\|w\|) of two non-zero vectors lies in [-1, 1], so acos is never outside its domain |
| `Angles.AngleVectors` | geo.py:63-75 | fails exactly on a length mismatch; 0 when either vector is zero; otherwise in [0, pi]; 0 for a vector with itself |
| `Angles.AngleVectorsSymmetric` | geo.py:71-75 | the angle does not depend on the order of the operands |
| `Angles.AngleVectorsMirror` | geo.py:75 | reflecting both vectors keeps the angle |
| `Angles.AngleVectorsPerpendicular` | geo.py:73-75 | non-zero vectors with dot product 0 are pi/2 apart |
| `Angles.AngleVectorsOpposite` | geo.py:73-75 | a non-zero vector and its negation are pi apart |
| `Angles.AngleVectorsExamples` | test.py:38-40 | x̂ and ŷ are pi/2 apart, x̂ and −x̂ are pi apart |
| `Angles.AngleBetweenCoordinates` | geo.py:78-90 | fails exactly when a coordinate is out of range, with the first point's error first; otherwise in [0, pi] |
| `Angles.DistanceBetweenCoordinates` | geo.py:93-104 | fails exactly as the angle does; otherwise in [0, pi R] |
| `Angles.DistanceSamePoint` | geo.py:103-104 | a point is at distance 0 from itself |
| `Angles.DistanceSymmetric` | geo.py:103-104 | the distance between two valid points does not depend on their order |
| `Angles.DistanceQuarterEquator` | test.py:63 | from (0, 0) to (0, 90) the distance is pi/2 R |
| `Angles.DistanceHalfEquator` | test.py:64 | from (0, 0) to (0, 180) the distance is pi R |
| `Headings.Tangent` | geo.py:120 | (v × t) × v is a 3-vector perpendicular to v whose dot product with t is \|v × t\|², so it never points away from t |
| `Headings.TangentMagnitude` | geo.py:120-121 | on the sphere of radius R, \|(v × t) × v\|² = R²\|v × t\|² |
| `Headings.NorthTangent` | geo.py:122 | the north tangent (v × ẑ) × v never points south |
| `Headings.DirectionGuard` | geo.py:121 | the tangent is shorter than 1 exactly when R²\|v × w\|² < 1 |
| `Headings.DirectionBetweenCoordinates` | geo.py:107-124 | fails exactly when a coordinate is out of range; otherwise tangent to the sphere at the first point; the tangent toward the second point when R²\|v × w\|² >= 1, the north tangent otherwise |
| `Headings.DirectionSamePoint` | geo.py:120-122 | from a point to itself the direction falls back to north |
| `Headings.DirectionOriginToItself` | test.py:73 | from (0, 0) to itself the direction is (0, 0, R²) |
| `Headings.DirectionEast` | test.py:74 | from (0, 0) toward (0, 90) the direction is (0, R³, 0) |
| `Headings.DirectionAntipode` | test.py:75 | from (0, 0) toward (0, 180) the direction is (0, 0, R²) |
| `Headings.DirectionMirror` | geo.py:118-124 | negating both longitudes reflects the direction |
| `Headings.TangentMirror` | geo.py:120 | the double cross product commutes with the reflection |
| `Headings.Heading` | geo.py:136-139 | fails exactly when a coordinate is out of range; otherwise the angle from north lies in [0, 180] degrees |
| `Headings.HeadingMirror` | geo.py:136-139 | negating both longitudes keeps the heading |
| `Headings.BearingBetweenCoordinates` | geo.py:127-142 | fails exactly when a coordinate is out of range; otherwise in [0, 360]; equal to 360 − heading, in [180, 360], when `long2 < long1`, and to the heading, in [0, 180], otherwise |
| `Headings.BearingMirror` | geo.py:140-141 | negating both longitudes turns bearing b into 360 − b when the longitudes differ and keeps it when they are equal |
| `Headings.BearingSamePoint` | test.py:85 | the bearing from a point to itself is 0 |
| `Headings.BearingEast` | test.py:86 | the bearing from (0, 0) toward (0, 90) is 90 |
| `Headings.BearingAntipode` | test.py:87 | the bearing from (0, 0) toward (0, 180) is 0 |
| `Headings.BearingFullTurn` | geo.py:140-141 | from (0, 180) toward its antipode (0, 0) the direction falls back to north, the heading is 0, and since `long2 < long1` the bearing is exactly 360 |
| `Headings.BearingFromPole` | geo.py:136-141 | from the north pole toward any valid point the bearing is 0, or 360 when `long2 < long1`: with exact cosines the north vector at the pole is zero, and `angle_vectors` returns 0 for a zero vector |
| `Cardinals.Index` | geo.py:152 | Python list indexing succeeds exactly for indices in [−n, n); a non-negative index picks that entry and a negative index −k picks entry n − k |
| `Cardinals.CardinalFromAngle` | geo.py:145-152 | succeeds exactly for angles in (−427.5, 382.5], so for every angle of [0, 360]; fails with an index error otherwise |
| `Cardinals.IndexRange` | geo.py:152 | the rounded index lies in −9..8 exactly for angles in (−427.5, 382.5] |
| `Cardinals.IndexInBounds` | geo.py:151-152 | on [0, 360] the index stays in 0..8 |
| `Cardinals.CardinalSector` | geo.py:151-152 | an angle strictly within 22.5 degrees of k·45 gets the k-th label |
| `Cardinals.CardinalSectorNegative` | geo.py:151-152 | an angle strictly within 22.5 degrees of −k·45, for k in 1..9, gets entry 9 − k of the list, one sector off the compass because of the second `'N'` |
| `Cardinals.CardinalNegativeExamples` | geo.py:151-152 | −45 gives N and −90 gives NW, through `cardinals[-1]` and `cardinals[-2]` |
| `Cardinals.CardinalMultiple` | geo.py:151-152 | each multiple k·45 of [0, 360] gets the k-th label |
| `Cardinals.CardinalTies` | geo.py:152 | angles exactly between two compass points take the even index: 22.5 gives N, 67.5 and 112.5 give E, 337.5 gives N |
| `Cardinals.CardinalExamples` | test.py:96-103 | 0, 45, …, 315 give N, NE, E, SE, S, SW, W, NW, and 360 gives N |

## Left out

- iss.py (the ISS position feed, its time stamps and its elevation formula) is
  not part of this model. It is a client of this module.
- Floating point: every quantity is an exact real. So the model does not
  cover the rounding error that makes the tests compare within a tolerance,
  nor the `== 0` and `< 1` tests going the other way on numbers near 0 or 1.
  The largest consequence is at the poles. In exact reals cos(pi/2) = 0, so
  the north vector of geo.py:137 is zero at latitude ±90 and the heading is
  0 (`Headings.BearingFromPole`). In floating point `cos(radians(90))` is
  about 6.1e-17, the north vector is tiny but not zero, and the bearing from
  the north pole comes out near 180 instead.
- Non-finite floats and overflow: the model has no NaN, infinity or
  overflow, so it drops three error paths. NaN passes `to_vector`'s range
  checks, because both comparisons at geo.py:53 and :55 are false, so
  `to_vector(nan, 0)` returns a NaN point instead of raising. `a ** 2` at
  geo.py:13 raises `OverflowError` once a component exceeds about 1.3e154,
  so `magnitude` and `angle_vectors` can fail in Python where the model
  succeeds. `round` at geo.py:152 raises `ValueError` for NaN and
  `OverflowError` for infinity, and the model's only failure there is
  `IndexOutOfRange`.
- The numerical values of sqrt, sin, cos, acos and pi: they are parameters
  constrained by true laws. So the model does not prove the test values that
  only a numerical evaluation gives. Only the exact values are proved (those
  at 0, 90 and 180 degrees and at the poles). The sign relation between the
  two bearings at latitude 45, b' = 360 − b, is proved as
  `Headings.BearingMirror`.
- No round trip: geo.py has no inverse of `to_vector`, and `to_vector` is not
  one-to-one. Latitude 90 gives (0, 0, R) for every longitude, and longitudes
  −180 and 180 give the same point. `Coordinates.ToVectorExamples` states the
  pole case and `Coordinates.ToVectorAntimeridian` the other. So the model claims no decode-after-encode property. The
  partners it proves instead are the laws each operation keeps: the length R
  of `to_vector`, the mirror symmetries, degrees undoing radians.
- Integer arguments: Python would accept ints where floats are expected. The
  model takes reals throughout, which gives the same values.
- `from datetime import time` in geo.py is unused.
