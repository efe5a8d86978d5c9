/**
  Python's built-in `round(x, n)` on exact values: the multiple of 10^-n nearest to x,
  with an exact tie going to the even multiple ("banker's rounding").
 */
module Rounding {

  import opened Chars

  /** k is an integer nearest to y, and an exact tie is broken towards the even one. */
  ghost predicate NearestEven(y: real, k: int) {
    && -0.5 <= k as real - y <= 0.5
    && ((k as real - y == 0.5 || k as real - y == -0.5) ==> k % 2 == 0)
  }

  /** The integer nearest to y, ties to even. */
  function RoundHalfEven(y: real): (k: int)
    ensures NearestEven(y, k)
  {
    var n := y.Floor;
    var f := y - n as real;
    if f > 0.5 then n + 1
    else if f < 0.5 then n
    else if n % 2 == 0 then n
    else n + 1
  }

  /** Only one integer is nearest-with-ties-to-even, so RoundHalfEven is the rounding. */
  lemma NearestEvenUnique(y: real, k: int, k': int)
    requires NearestEven(y, k) && NearestEven(y, k')
    ensures k == k'
  {
  }

  /** `round(x, places)` counted in units of 10^-places. */
  function RoundUnits(x: real, places: nat): (k: int)
    ensures NearestEven(x * Pow10(places) as real, k)
  {
    RoundHalfEven(x * Pow10(places) as real)
  }

  /** `round(x, places)` as a value. */
  function Round(x: real, places: nat): (r: real)
    ensures r * Pow10(places) as real == RoundUnits(x, places) as real
    ensures -0.5 <= (r - x) * Pow10(places) as real <= 0.5
  {
    RoundUnits(x, places) as real / Pow10(places) as real
  }

  /** An integer within a half of a value of [lo, hi], for whole lo and hi, lies in [lo, hi]. */
  lemma NearestWithin(y: real, k: int, lo: int, hi: int)
    requires lo as real <= y <= hi as real
    requires NearestEven(y, k)
    ensures lo <= k <= hi
  {
    assert k as real > lo as real - 1.0;
    assert k as real < hi as real + 1.0;
  }
}
