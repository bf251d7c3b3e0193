/** `cardinal_from_angle`: a compass bearing in degrees mapped to one of the
    eight compass points by rounding bearing/45 half to even and indexing a
    nine-entry list whose last entry repeats north. */
module Cardinals {
  import opened Errors
  import opened Rounding

  datatype Cardinal = N | NE | E | SE | S | SW | W | NW

  /** The label list, north again at index 8 to cover bearings near 360. */
  const Labels: seq<Cardinal> := [N, NE, E, SE, S, SW, W, NW, N]

  /** Python list indexing: an index in [0, |s|) counts from the front, one in
      [-|s|, 0) counts from the back, and any other raises IndexError. */
  function Index<T>(s: seq<T>, i: int): (r: Result<T>)
    ensures r.Success? <==> -|s| <= i < |s|
    ensures r.Failure? ==> r.error == IndexOutOfRange
    ensures 0 <= i < |s| ==> r == Success(s[i])
    ensures -|s| <= i < 0 ==> r == Success(s[|s| + i])
  {
    if 0 <= i < |s| then Success(s[i])
    else if -|s| <= i < 0 then Success(s[|s| + i])
    else Failure(IndexOutOfRange)
  }

  /** `cardinal_from_angle(angle)`. The lookup succeeds exactly for angles in
      (-427.5, 382.5]: the rounded index must land in -9..8, and the two ends
      are where half-to-even rounding decides (8.5 rounds to 8, -9.5 to -10).
      Every angle of the documented domain [0, 360] is looked up. */
  function CardinalFromAngle(angle: real): (r: Result<Cardinal>)
    ensures r.Success? <==> -427.5 < angle <= 382.5
    ensures r.Failure? ==> r.error == IndexOutOfRange
    ensures 0.0 <= angle <= 360.0 ==> r.Success?
  {
    var k := RoundHalfEven(angle / 45.0);
    IndexRange(angle);
    Index(Labels, k)
  }

  /** The rounded index lies in -9..8 exactly on (-427.5, 382.5]. */
  lemma IndexRange(angle: real)
    ensures -9 <= RoundHalfEven(angle / 45.0) <= 8 <==> -427.5 < angle <= 382.5
  {
    var y := angle / 45.0;
    var k := RoundHalfEven(y);
    if angle == 382.5 {
      RoundHalfEvenUnique(y, 8);
    } else if angle == -427.5 {
      RoundHalfEvenUnique(y, -10);
    }
  }

  /** On [0, 360] the index stays within 0..8, so the lookup never reaches
      the negative (wrap-around) indices or falls off the end. */
  lemma IndexInBounds(angle: real)
    requires 0.0 <= angle <= 360.0
    ensures 0 <= RoundHalfEven(angle / 45.0) <= 8
  {
    RoundWithin(angle / 45.0, 0, 8);
  }

  /** An angle strictly nearer to k.45 than to any other multiple of 45 maps
      to the k-th label. */
  lemma CardinalSector(angle: real, k: int)
    requires 0 <= k <= 8
    requires -22.5 < angle - 45.0 * k as real < 22.5
    ensures CardinalFromAngle(angle) == Success(Labels[k])
  {
    RoundHalfEvenUnique(angle / 45.0, k);
  }

  /** Below -22.5 the lookup wraps around to the back of the list. Because
      the list ends in a second north, the labels come out one sector off:
      an angle strictly nearer to -k.45 than to any other multiple of 45
      maps to entry 9 - k, so -45 gives N rather than NW. */
  lemma CardinalSectorNegative(angle: real, k: int)
    requires 1 <= k <= 9
    requires -22.5 < angle + 45.0 * k as real < 22.5
    ensures CardinalFromAngle(angle) == Success(Labels[9 - k])
  {
    RoundHalfEvenUnique(angle / 45.0, -k);
  }

  /** Two instances of the shift: -45 gives N and -90 gives NW, where the
      compass would say NW and W. */
  lemma CardinalNegativeExamples()
    ensures CardinalFromAngle(-45.0) == Success(N)
    ensures CardinalFromAngle(-90.0) == Success(NW)
  {
    CardinalSectorNegative(-45.0, 1);
    CardinalSectorNegative(-90.0, 2);
  }

  /** Each exact multiple k.45 of [0, 360] maps to the k-th label. */
  lemma CardinalMultiple(k: int)
    requires 0 <= k <= 8
    ensures CardinalFromAngle(45.0 * k as real) == Success(Labels[k])
  {
    CardinalSector(45.0 * k as real, k);
  }

  /** A bearing exactly between two compass points goes to the one with the
      even index: 22.5 gives N (index 0) and 67.5 gives E (index 2). */
  lemma CardinalTies()
    ensures CardinalFromAngle(22.5) == Success(N)
    ensures CardinalFromAngle(67.5) == Success(E)
    ensures CardinalFromAngle(112.5) == Success(E)
    ensures CardinalFromAngle(337.5) == Success(N)
  {
    RoundHalfEvenUnique(0.5, 0);
    RoundHalfEvenUnique(1.5, 2);
    RoundHalfEvenUnique(2.5, 2);
    RoundHalfEvenUnique(7.5, 8);
  }

  /** The compass points the tests name, and both ends of the domain. */
  lemma CardinalExamples()
    ensures CardinalFromAngle(0.0) == Success(N)
    ensures CardinalFromAngle(45.0) == Success(NE)
    ensures CardinalFromAngle(90.0) == Success(E)
    ensures CardinalFromAngle(135.0) == Success(SE)
    ensures CardinalFromAngle(180.0) == Success(S)
    ensures CardinalFromAngle(225.0) == Success(SW)
    ensures CardinalFromAngle(270.0) == Success(W)
    ensures CardinalFromAngle(315.0) == Success(NW)
    ensures CardinalFromAngle(360.0) == Success(N)
  {
    CardinalMultiple(0);
    CardinalMultiple(1);
    CardinalMultiple(2);
    CardinalMultiple(3);
    CardinalMultiple(4);
    CardinalMultiple(5);
    CardinalMultiple(6);
    CardinalMultiple(7);
    CardinalMultiple(8);
  }
}
