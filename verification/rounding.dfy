/** Python's built-in `round`, which rounds half to even (banker's
    rounding), on exact reals: `round(x)` to an integer and `round(x, 5)`
    to five decimal places. */
module Rounding {

  /** `round(x)`: the integer nearest to x; on a tie, the even one. */
  function RoundHalfEven(x: real): (r: int)
    ensures -0.5 <= r as real - x <= 0.5
    ensures (r as real - x == 0.5 || x - r as real == 0.5) ==> r % 2 == 0
  {
    var f := x.Floor;
    var d := x - f as real;
    if d < 0.5 then f
    else if d > 0.5 then f + 1
    else if f % 2 == 0 then f
    else f + 1
  }

  /** The two properties above pin the result down: any integer within one
      half of x, and even when exactly one half away, is `round(x)`. */
  lemma RoundHalfEvenUnique(x: real, k: int)
    requires -0.5 <= k as real - x <= 0.5
    requires (k as real - x == 0.5 || x - k as real == 0.5) ==> k % 2 == 0
    ensures RoundHalfEven(x) == k
  {
    var r := RoundHalfEven(x);
    assert -1.0 <= r as real - k as real <= 1.0;
  }

  /** Rounding an integer leaves it unchanged. */
  lemma RoundInteger(k: int)
    ensures RoundHalfEven(k as real) == k
  {
    RoundHalfEvenUnique(k as real, k);
  }

  /** Rounding never crosses an integer bound the argument respects. */
  lemma RoundWithin(x: real, lo: int, hi: int)
    requires lo as real <= x <= hi as real
    ensures lo <= RoundHalfEven(x) <= hi
  {
  }

  const Scale5: real := 100000.0

  lemma UnitStaysUnit(x: real)
    ensures -1.0 <= x <= 1.0 ==> -100000 <= RoundHalfEven(x * Scale5) <= 100000
  {
    if -1.0 <= x <= 1.0 {
      RoundWithin(x * Scale5, -100000, 100000);
    }
  }

  /** `round(x, 5)`: x rounded half to even at the fifth decimal place. It is
      within half a unit of the fifth place of x, and it keeps a value in
      [-1, 1] inside [-1, 1] - the guard in front of `acos`. */
  function Round5(x: real): (r: real)
    ensures -0.000005 <= r - x <= 0.000005
    ensures -1.0 <= x <= 1.0 ==> -1.0 <= r <= 1.0
  {
    UnitStaysUnit(x);
    RoundHalfEven(x * Scale5) as real / Scale5
  }

  /** Values already on the five-place grid are fixed points; in particular
      round(1, 5) = 1 and round(-1, 5) = -1. */
  lemma Round5Integer(k: int)
    ensures Round5(k as real) == k as real
  {
    RoundInteger(k * 100000);
  }
}
