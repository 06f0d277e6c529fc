/**
 * Decimal rounding on exact reals.
 *
 * PHP's `round($x, $p)` rounds half away from zero; Python's `round(x, p)`
 * rounds half to even. Both are stated here on reals, so the floating-point
 * representation error of the original is not modelled.
 */
module Rounding {

  /** The number of decimals the sources round to: 0, 1 or 2. */
  type Places = n: nat | n <= 2

  /** 10^places as a real. */
  function Pow10(places: Places): (r: real)
    ensures r >= 1.0
  {
    if places == 0 then 1.0 else if places == 1 then 10.0 else 100.0
  }

  /** Nearest integer, ties away from zero (PHP `round($x)`). */
  function RoundHalfAway(x: real): int
  {
    if x >= 0.0 then (x + 0.5).Floor else -((0.5 - x).Floor)
  }

  /** Nearest integer, ties to the even neighbour (Python `round(x)`). */
  function RoundHalfEven(x: real): int
  {
    if x - x.Floor as real < 0.5 then x.Floor
    else if x - x.Floor as real > 0.5 then x.Floor + 1
    else if x.Floor % 2 == 0 then x.Floor
    else x.Floor + 1
  }

  /** PHP `round($x, $places)`: scale up by 10^places, round, scale back down. */
  function PhpRound(x: real, places: Places): real
  {
    if places == 0 then RoundHalfAway(x) as real
    else if places == 1 then RoundHalfAway(x * 10.0) as real / 10.0
    else RoundHalfAway(x * 100.0) as real / 100.0
  }

  /** Python `round(x, places)`: scale up by 10^places, round, scale back down. */
  function PyRound(x: real, places: Places): real
  {
    if places == 0 then RoundHalfEven(x) as real
    else if places == 1 then RoundHalfEven(x * 10.0) as real / 10.0
    else RoundHalfEven(x * 100.0) as real / 100.0
  }

  lemma RoundHalfAwayClose(x: real)
    ensures -0.5 <= RoundHalfAway(x) as real - x <= 0.5
    ensures x >= 0.0 ==> RoundHalfAway(x) >= 0
  {
  }

  lemma RoundHalfEvenClose(x: real)
    ensures -0.5 <= RoundHalfEven(x) as real - x <= 0.5
  {
  }

  /** PHP rounding to `places` decimals moves a value by at most half a unit in the last place. */
  lemma PhpRoundError(x: real, places: Places)
    ensures -0.5 / Pow10(places) <= PhpRound(x, places) - x <= 0.5 / Pow10(places)
  {
    if places == 0 {
      RoundHalfAwayClose(x);
    } else if places == 1 {
      RoundHalfAwayClose(x * 10.0);
    } else {
      RoundHalfAwayClose(x * 100.0);
    }
  }

  /** Python rounding to `places` decimals moves a value by at most half a unit in the last place. */
  lemma PyRoundError(x: real, places: Places)
    ensures -0.5 / Pow10(places) <= PyRound(x, places) - x <= 0.5 / Pow10(places)
  {
    if places == 0 {
      RoundHalfEvenClose(x);
    } else if places == 1 {
      RoundHalfEvenClose(x * 10.0);
    } else {
      RoundHalfEvenClose(x * 100.0);
    }
  }

  /** PHP rounding keeps non-negative values non-negative. */
  lemma PhpRoundNonNegative(x: real, places: Places)
    requires x >= 0.0
    ensures PhpRound(x, places) >= 0.0
  {
    if places == 0 {
      RoundHalfAwayClose(x);
    } else if places == 1 {
      RoundHalfAwayClose(x * 10.0);
    } else {
      RoundHalfAwayClose(x * 100.0);
    }
  }

  /** Half-to-even rounding to an integer is monotone. */
  lemma RoundHalfEvenMonotone(x: real, y: real)
    requires x <= y
    ensures RoundHalfEven(x) <= RoundHalfEven(y)
  {
    if x.Floor < y.Floor {
      assert RoundHalfEven(x) <= x.Floor + 1 <= y.Floor <= RoundHalfEven(y);
    }
  }

  /** Python rounding to `places` decimals is monotone. */
  lemma PyRoundMonotone(x: real, y: real, places: Places)
    requires x <= y
    ensures PyRound(x, places) <= PyRound(y, places)
  {
    if places == 0 {
      RoundHalfEvenMonotone(x, y);
    } else if places == 1 {
      RoundHalfEvenMonotone(x * 10.0, y * 10.0);
    } else {
      RoundHalfEvenMonotone(x * 100.0, y * 100.0);
    }
  }

  /** Python rounding of a non-positive value is non-positive. */
  lemma PyRoundNonPositive(x: real, places: Places)
    requires x <= 0.0
    ensures PyRound(x, places) <= 0.0
  {
    PyRoundMonotone(x, 0.0, places);
  }
}
