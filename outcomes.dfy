/** Small helpers shared by the puzzles: Rust's Option, absolute value and the least element of a list. */
module Outcomes {

  datatype Option<+T> = None | Some(value: T)

  /** The last element of a sequence, or a default when the sequence is empty. */
  function LastOr(s: seq<int>, default: int): (r: int)
    ensures s == [] ==> r == default
    ensures s != [] ==> r == s[|s| - 1]
  {
    if s == [] then default else s[|s| - 1]
  }

  /** `n.abs()`. */
  function Abs(n: int): (r: nat)
    ensures r == n || r == -n
  {
    if n < 0 then -n else n
  }

  /** The least element of a non-empty list: what `v.sort(); v[0]` yields. */
  function Minimum(s: seq<int>): (m: int)
    requires |s| > 0
    ensures m in s && forall x | x in s :: m <= x
  {
    if |s| == 1 then s[0]
    else
      var rest := Minimum(s[1..]);
      assert forall x | x in s :: x == s[0] || x in s[1..];
      if s[0] <= rest then s[0] else rest
  }

  /**
   * The product of two naturals. Kept behind a name so that the solver does
   * not reason about the multiplication where it is not needed.
   */
  function Product(a: nat, b: nat): nat
  {
    a * b
  }
}
