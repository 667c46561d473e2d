/**
 * Day 1: the fuel a module of a given mass needs, once and counting the fuel
 * for the fuel itself. Rust's `i32` division truncates toward zero, which the
 * model writes out; the arithmetic never leaves the `i32` range because every
 * step divides.
 */
module Fuel {

  /** Rust's `m / 3` on a signed integer: the quotient truncated toward zero. */
  function Quot3(m: int): (q: int)
    ensures 3 * q <= m < 3 * q + 3 || 3 * q - 3 < m <= 3 * q
    ensures m >= 0 ==> q >= 0 && q * 3 <= m
    ensures m < 0 ==> q <= 0 && 3 * q - 3 < m <= 3 * q
  {
    if m >= 0 then m / 3 else -((-m) / 3)
  }

  /** `fuel_req`: a third of the mass, rounded toward zero, less two. */
  function FuelReq(mass: int): int
  {
    Quot3(mass) - 2
  }

  /** For a non-negative mass the truncating quotient is Dafny's Euclidean one. */
  lemma FuelReqNonNegative(mass: int)
    requires mass >= 0
    ensures FuelReq(mass) == mass / 3 - 2
  {
  }

  /** For a negative mass the two divisions disagree: -7 needs -4, not -5. */
  lemma FuelReqTruncates()
    ensures FuelReq(-7) == -4
    ensures -7 / 3 - 2 == -5
  {
  }

  /**
   * `fuel_req_recursive`: the fuel for a mass, plus the fuel for that fuel, and
   * so on until a mass of at most 6 needs none.
   */
  function FuelReqRecursive(mass: int): (r: int)
    ensures r >= 0
    ensures mass <= 6 ==> r == 0
    ensures mass > 6 ==> FuelReq(mass) <= r < mass
    decreases mass
  {
    if mass > 6 then
      var fuel := FuelReq(mass);
      fuel + FuelReqRecursive(fuel)
    else 0
  }

  /** One step of the recursion: the mass's own fuel plus the fuel that fuel needs. */
  lemma FuelReqRecursiveUnfolds(mass: int)
    requires mass > 6
    ensures 0 <= FuelReq(mass) < mass
    ensures FuelReqRecursive(mass) == FuelReq(mass) + FuelReqRecursive(FuelReq(mass))
  {
  }

  /** The worked example of the puzzle: a mass of 1969 needs 654 + 216 + 70 + 21 + 5. */
  lemma FuelReqRecursiveExample()
    ensures FuelReq(1969) == 654
    ensures FuelReqRecursive(1969) == 966
  {
  }
}
