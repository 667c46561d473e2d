/**
 * Day 12, part two: how many steps until the moons repeat. The simulation
 * records, step by step, each coordinate of the first four moons; each of
 * those twelve histories is searched for its shortest repeating prefix, and
 * the answer is the least common multiple of the twelve pattern lengths.
 * Lengths and multiples are `u128` in the source; the model uses unbounded
 * naturals.
 */
module Periods {
  import opened Outcomes
  import Moons

  /** `d * k`, named so that it can serve as the trigger of `Divides`. */
  function Mul(d: nat, k: nat): nat
  {
    d * k
  }

  /** `d` divides `n`: some natural multiple of `d` is `n`. */
  ghost predicate Divides(d: nat, n: nat)
  {
    exists k: nat :: n == Mul(d, k)
  }

  /** Division leaves `a` split into whole multiples of `b` and the remainder. */
  lemma DivMod(a: nat, b: nat)
    requires b > 0
    ensures a == Mul(b, a / b) + a % b && a % b < b
  {
  }

  /** `gcd`: Euclid's algorithm on remainders. */
  function Gcd(a: nat, b: nat): nat
    decreases b
  {
    if b == 0 then a else Gcd(b, a % b)
  }

  /** The greatest common divisor divides both arguments. */
  lemma {:induction false} GcdDivides(a: nat, b: nat)
    ensures Divides(Gcd(a, b), a) && Divides(Gcd(a, b), b)
    decreases b
  {
    var g := Gcd(a, b);
    if b == 0 {
      assert a == Mul(g, 1) && 0 == Mul(g, 0);
    } else {
      GcdDivides(b, a % b);
      var p: nat :| b == Mul(g, p);
      var q: nat :| a % b == Mul(g, q);
      var d := a / b;
      DivMod(a, b);
      assert Mul(b, d) == Mul(g, Mul(p, d)) by {
        assert b * d == (g * p) * d == g * (p * d);
      }
      assert a == Mul(g, Mul(p, d) + q) by {
        assert g * (p * d) + g * q == g * (p * d + q);
      }
    }
  }

  /** Every common divisor of the arguments divides their greatest common divisor. */
  lemma {:induction false} GcdGreatest(a: nat, b: nat, d: nat)
    requires Divides(d, a) && Divides(d, b)
    ensures Divides(d, Gcd(a, b))
    decreases b
  {
    if b != 0 {
      var p: nat :| a == Mul(d, p);
      var q: nat :| b == Mul(d, q);
      var t := a / b;
      DivMod(a, b);
      assert d > 0 by {
        assert b == d * q;
      }
      var k: int := p - q * t;
      assert a % b == d * k by {
        assert a % b == d * p - (d * q) * t;
        assert (d * q) * t == d * (q * t);
        assert d * p - d * (q * t) == d * (p - q * t);
      }
      assert k >= 0;
      assert Divides(d, a % b) by {
        assert a % b == Mul(d, k);
      }
      GcdGreatest(b, a % b, d);
    }
  }

  /** The greatest common divisor is zero only when both arguments are. */
  lemma GcdZero(a: nat, b: nat)
    ensures Gcd(a, b) == 0 <==> a == 0 && b == 0
  {
    GcdDivides(a, b);
    if Gcd(a, b) == 0 {
      var p: nat :| a == Mul(0, p);
      var q: nat :| b == Mul(0, q);
    }
  }

  /**
   * `lcm`: `a * b / gcd(a, b)`. Both arguments zero make the divisor zero
   * and the source panic (`None`).
   */
  function Lcm(a: nat, b: nat): Option<nat>
  {
    var g := Gcd(a, b);
    if g == 0 then None else Some(a * b / g)
  }

  /**
   * The least common multiple exists unless both arguments are zero; it is
   * a multiple of each, times the greatest common divisor it is the product
   * of the two, and it is positive when both arguments are.
   */
  lemma LcmMeaning(a: nat, b: nat)
    ensures Lcm(a, b).Some? <==> a != 0 || b != 0
    ensures Lcm(a, b).Some? ==>
      var r := Lcm(a, b).value;
      && Divides(a, r) && Divides(b, r)
      && r * Gcd(a, b) == a * b
      && (a > 0 && b > 0 ==> r > 0)
  {
    GcdZero(a, b);
    var g := Gcd(a, b);
    if g != 0 {
      GcdDivides(a, b);
      var p: nat :| a == Mul(g, p);
      var q: nat :| b == Mul(g, q);
      MultipleFacts(g, p, q);
    }
  }

  /**
   * The least common multiple divides every common multiple of the two
   * arguments, so no smaller positive common multiple exists.
   */
  lemma LcmLeast(a: nat, b: nat, c: nat)
    requires Lcm(a, b).Some? && Divides(a, c) && Divides(b, c)
    ensures Divides(Lcm(a, b).value, c)
  {
    var g := Gcd(a, b);
    var l := Lcm(a, b).value;
    LcmMeaning(a, b);
    ScaledMultiple(a, b, c);
    var k: nat :| c * g == Mul(a * b, k);
    Regroup(l, g, k);
    assert g * c == g * (l * k);
    Cancel(g, c, l * k);
    assert c == Mul(l, k);
  }

  /** A common multiple of `a` and `b`, times their greatest common divisor, is a multiple of `a * b`. */
  lemma ScaledMultiple(a: nat, b: nat, c: nat)
    requires Divides(a, c) && Divides(b, c)
    ensures Divides(a * b, c * Gcd(a, b))
  {
    var x: nat :| c == Mul(a, x);
    var y: nat :| c == Mul(b, y);
    Regroup(b, y, a);
    Regroup(a, x, b);
    assert c * a == Mul(a * b, y);
    assert c * b == Mul(a * b, x);
    GcdGreatest(c * a, c * b, a * b);
    GcdScale(a, b, c);
  }

  /** The ways of grouping a product of three. */
  lemma Regroup(p: nat, q: nat, r: nat)
    ensures (p * q) * r == p * (q * r) == q * (p * r) == (p * r) * q == (r * p) * q == r * (p * q)
  {
  }

  /** Scaling both arguments scales their greatest common divisor. */
  lemma {:induction false} GcdScale(a: nat, b: nat, c: nat)
    ensures Gcd(c * a, c * b) == c * Gcd(a, b)
    decreases b
  {
    if b == 0 {
      assert c * b == 0;
    } else if c == 0 {
      assert c * a == 0 && c * b == 0;
    } else {
      ProductPositive(c, b);
      ModScale(a, b, c);
      GcdScale(b, a % b, c);
    }
  }

  /** Scaling dividend and divisor scales the remainder. */
  lemma ModScale(a: nat, b: nat, c: nat)
    requires b > 0 && c > 0
    ensures (c * a) % (c * b) == c * (a % b)
  {
    DivMod(a, b);
    var t, r := a / b, a % b;
    assert c * a == Mul(c * b, t) + c * r by {
      assert c * a == c * (b * t + r) == (c * b) * t + c * r;
    }
    assert c * r < c * b by {
      ProductPositive(c, b - r);
      assert c * b - c * r == c * (b - r);
    }
    ModUnique(c * a, c * b, t, c * r);
  }

  /** A positive factor cancels. */
  lemma Cancel(g: nat, u: nat, v: nat)
    requires g > 0 && g * u == g * v
    ensures u == v
  {
    DivOfMultiple(g, u);
    DivOfMultiple(g, v);
  }

  /** The facts about `a = g * p` and `b = g * q` that make `a * b / g` their least common multiple. */
  lemma MultipleFacts(g: nat, p: nat, q: nat)
    requires g > 0
    ensures (g * p) * (g * q) / g == g * p * q
    ensures g * p * q == Mul(g * p, q) && g * p * q == Mul(g * q, p)
    ensures (g * p * q) * g == (g * p) * (g * q)
    ensures p > 0 && q > 0 ==> g * p * q > 0
  {
    var m := g * p * q;
    assert (g * p) * (g * q) == g * m;
    DivOfMultiple(g, m);
    assert g * p * q == (g * q) * p;
    if p > 0 && q > 0 {
      ProductPositive(g * p, q);
    }
  }

  lemma DivOfMultiple(g: nat, m: nat)
    requires g > 0
    ensures g * m / g == m
  {
    var y := g * m / g;
    var r := g * m % g;
    assert g * m == g * y + r && 0 <= r < g;
    var e := m - y;
    assert g * e == r by {
      assert g * m - g * y == g * (m - y);
    }
    if e >= 1 {
      assert g * e == g * (e - 1) + g;
      ProductNonNegative(g, e - 1);
    }
  }

  lemma ProductNonNegative(a: nat, b: nat)
    ensures a * b >= 0
  {
  }

  lemma ProductPositive(a: nat, b: nat)
    requires a > 0 && b > 0
    ensures a * b > 0
  {
  }

  /** Divisibility is transitive. */
  lemma DividesTrans(a: nat, b: nat, c: nat)
    requires Divides(a, b) && Divides(b, c)
    ensures Divides(a, c)
  {
    var p: nat :| b == Mul(a, p);
    var q: nat :| c == Mul(b, q);
    assert c == Mul(a, p * q) by {
      assert (a * p) * q == a * (p * q);
    }
  }

  /** Element `i` of `v` equals the one at the same offset in the first `q` elements. */
  predicate Matches(v: seq<int>, q: nat, i: nat)
    requires 0 < q && i < |v|
  {
    v[i] == v[i % q]
  }

  // `Matches` stands between the quantifier and the indexing: quantified
  // over `v[i]` itself, each instance would create the next one, `v[i % q]`.
  /** `v` repeats with period `q`: every element equals the one `q` steps into the first copy. */
  predicate Periodic(v: seq<int>, q: nat)
    requires q > 0
  {
    forall i | q <= i < |v| :: Matches(v, q, i)
  }

  /** The shortest period of `v` from `q` on, among those at most half of `v`; `|v|` when there is none. */
  function PeriodFrom(v: seq<int>, q: nat): (l: nat)
    requires q > 0
    ensures l <= |v|
    decreases |v| / 2 + 1 - q
  {
    if q > |v| / 2 then |v|
    else if Periodic(v, q) then q
    else PeriodFrom(v, q + 1)
  }

  /** The length of the pattern `find_pattern` returns. */
  function PatternLength(v: seq<int>): (l: nat)
    ensures l <= |v|
  {
    PeriodFrom(v, 1)
  }

  /** The candidates below `p` are not periods, so the search from `q` gives what the search from `p` gives. */
  lemma {:induction false} PeriodFromSkip(v: seq<int>, q: nat, p: nat)
    requires 1 <= q <= p <= |v| / 2 + 1
    requires forall c | q <= c < p :: !Periodic(v, c)
    ensures PeriodFrom(v, q) == PeriodFrom(v, p)
    decreases p - q
  {
    if q < p {
      PeriodFromSkip(v, q + 1, p);
    }
  }

  /** What `PeriodFrom` finds: a period, or the whole length, and no shorter period before it. */
  lemma {:induction false} PeriodFromMeaning(v: seq<int>, q: nat)
    requires q > 0
    ensures var l := PeriodFrom(v, q);
      && (l == |v| || (q <= l <= |v| / 2 && Periodic(v, l)))
      && forall c | q <= c < l && c <= |v| / 2 :: !Periodic(v, c)
    decreases |v| / 2 + 1 - q
  {
    if q <= |v| / 2 && !Periodic(v, q) {
      PeriodFromMeaning(v, q + 1);
    }
  }

  /**
   * The pattern length is the shortest period of at most half the history,
   * or the whole history when it has none; the history is then its first
   * `l` elements over and over.
   */
  lemma PatternLengthMeaning(v: seq<int>)
    ensures var l := PatternLength(v);
      && l <= |v|
      && (l < |v| <==> exists c | 1 <= c <= |v| / 2 :: Periodic(v, c))
      && (l < |v| ==> l >= 1 && Periodic(v, l))
      && (forall c | 1 <= c < l && c <= |v| / 2 :: !Periodic(v, c))
      && (l > 0 ==> forall i | 0 <= i < |v| :: v[i] == v[..l][i % l])
  {
    PeriodFromMeaning(v, 1);
    var l := PatternLength(v);
    if l > 0 {
      PrefixRepeats(v, l);
    }
  }

  /** A history of period `l`, or of length `l`, is its first `l` elements repeated. */
  lemma PrefixRepeats(v: seq<int>, l: nat)
    requires 0 < l <= |v| && (l == |v| || Periodic(v, l))
    ensures forall i | 0 <= i < |v| :: v[i] == v[..l][i % l]
  {
    forall i | 0 <= i < |v|
      ensures v[i] == v[..l][i % l]
    {
      if i < l {
        ModUnique(i, l, 0, i);
      } else {
        DivMod(i, l);
        assert Matches(v, l, i);
      }
    }
  }

  /** Only the empty history has an empty pattern. */
  lemma PatternLengthPositive(v: seq<int>)
    ensures PatternLength(v) > 0 <==> |v| > 0
  {
    PeriodFromMeaning(v, 1);
  }

  /**
   * A period can be checked one step back instead of against the first
   * copy: `v` has period `q` exactly when each element equals the one `q`
   * before it.
   */
  lemma PeriodicShift(v: seq<int>, q: nat)
    requires q > 0
    ensures Periodic(v, q) <==> forall i | q <= i < |v| :: v[i] == v[i - q]
  {
    if Periodic(v, q) {
      forall i | q <= i < |v|
        ensures v[i] == v[i - q]
      {
        ModShift(i, q);
        assert Matches(v, q, i);
        if i - q >= q {
          assert Matches(v, q, i - q);
        }
      }
    } else {
      var i :| q <= i < |v| && v[i] != v[i % q];
      if forall j | q <= j < |v| :: v[j] == v[j - q] {
        ShiftReachesStart(v, q, i);
      }
    }
  }

  lemma ModShift(i: nat, q: nat)
    requires 0 < q <= i
    ensures (i - q) % q == i % q
  {
    var k := (i - q) / q;
    DivMod(i - q, q);
    assert Mul(q, k + 1) == Mul(q, k) + q;
    ModUnique(i, q, k + 1, (i - q) % q);
  }

  /** Quotient and remainder are the only way to write `i` as whole multiples of `q` plus less than `q`. */
  lemma ModUnique(i: nat, q: nat, k: nat, r: nat)
    requires 0 < q && r < q && i == Mul(q, k) + r
    ensures i % q == r
  {
    var y := i / q;
    var s := i % q;
    DivMod(i, q);
    var e := k - y;
    assert q * e == s - r by {
      assert q * k - q * y == q * (k - y);
    }
    if e >= 1 {
      assert q * e == q * (e - 1) + q;
      ProductNonNegative(q, e - 1);
    }
  }

  /** Stepping back by `q` from `i` ends at `i % q` with the same element. */
  lemma {:induction false} ShiftReachesStart(v: seq<int>, q: nat, i: nat)
    requires 0 < q && i < |v|
    requires forall j | q <= j < |v| :: v[j] == v[j - q]
    ensures v[i] == v[i % q]
    decreases i
  {
    if i >= q {
      ShiftReachesStart(v, q, i - q);
      ModShift(i, q);
    } else {
      ModUnique(i, q, 0, i);
    }
  }

  /**
   * `find_pattern`: tries pattern lengths 1 up to half the history and
   * returns the first prefix the whole history repeats; the whole history
   * when none fits.
   */
  method FindPattern(v: seq<int>) returns (r: seq<int>)
    ensures |r| == PatternLength(v) && r == v[..|r|]
  {
    for patternLength := 1 to |v| / 2 + 1
      invariant forall c | 1 <= c < patternLength :: !Periodic(v, c)
    {
      assert patternLength <= |v|;
      var pattern := v[..patternLength];
      var isPattern := true;
      for i := patternLength to |v|
        invariant forall j | patternLength <= j < i :: v[j] == pattern[j % patternLength]
      {
        if v[i] != pattern[i % patternLength] {
          assert !Matches(v, patternLength, i);
          isPattern := false;
          break;
        }
      }
      if isPattern {
        PeriodFromSkip(v, 1, patternLength);
        return pattern;
      }
    }
    PeriodFromSkip(v, 1, |v| / 2 + 1);
    return v;
  }

  /** `lengths.iter().fold(1, lcm)`: `None` where some step divides by zero. */
  function FoldLcm(lengths: seq<nat>): Option<nat>
  {
    if lengths == [] then Some(1)
    else
      var acc := FoldLcm(lengths[..|lengths| - 1]);
      if acc.None? then None else Lcm(acc.value, lengths[|lengths| - 1])
  }

  /** Folding positive lengths succeeds with a positive common multiple of all of them. */
  lemma {:induction false} FoldLcmMultiple(lengths: seq<nat>)
    requires forall i | 0 <= i < |lengths| :: lengths[i] > 0
    ensures FoldLcm(lengths).Some? && FoldLcm(lengths).value > 0
    ensures forall i | 0 <= i < |lengths| :: Divides(lengths[i], FoldLcm(lengths).value)
  {
    if lengths != [] {
      var front := lengths[..|lengths| - 1];
      var last := lengths[|lengths| - 1];
      FoldLcmMultiple(front);
      var a := FoldLcm(front).value;
      LcmMeaning(a, last);
      var r := FoldLcm(lengths).value;
      forall i | 0 <= i < |lengths|
        ensures Divides(lengths[i], r)
      {
        if i < |lengths| - 1 {
          assert lengths[i] == front[i];
          DividesTrans(lengths[i], a, r);
        }
      }
    }
  }

  /** The folded multiple of positive lengths divides every common multiple of them. */
  lemma {:induction false} FoldLcmLeast(lengths: seq<nat>, c: nat)
    requires forall i | 0 <= i < |lengths| :: lengths[i] > 0
    requires forall i | 0 <= i < |lengths| :: Divides(lengths[i], c)
    ensures FoldLcm(lengths).Some? && Divides(FoldLcm(lengths).value, c)
  {
    FoldLcmMultiple(lengths);
    if lengths == [] {
      assert c == Mul(1, c);
    } else {
      var front := lengths[..|lengths| - 1];
      assert forall i | 0 <= i < |front| :: front[i] == lengths[i];
      FoldLcmLeast(front, c);
      LcmLeast(FoldLcm(front).value, lengths[|lengths| - 1], c);
    }
  }

  /** Two zero lengths make the fold divide zero by zero. */
  lemma {:induction false} FoldLcmZeros(lengths: seq<nat>)
    requires |lengths| >= 2
    requires forall i | 0 <= i < |lengths| :: lengths[i] == 0
    ensures FoldLcm(lengths).None?
  {
    var front := lengths[..|lengths| - 1];
    if |lengths| == 2 {
      assert FoldLcm(front[..0]) == Some(1);
      assert Gcd(1, 0) == 1;
      assert FoldLcm(front) == Some(0);
      assert Gcd(0, 0) == 0;
    } else {
      FoldLcmZeros(front);
    }
  }

  /** Once a prefix of the lengths fails to fold, so does the whole list. */
  lemma {:induction false} FoldLcmPrefixNone(lengths: seq<nat>, j: nat)
    requires j <= |lengths| && FoldLcm(lengths[..j]).None?
    ensures FoldLcm(lengths).None?
    decreases |lengths| - j
  {
    if j < |lengths| {
      assert lengths[..j + 1][..j] == lengths[..j];
      FoldLcmPrefixNone(lengths, j + 1);
    } else {
      assert lengths[..j] == lengths;
    }
  }

  /** Coordinate `c` of a vector: 0 is x, 1 is y and 2 is z. */
  function Coord(v: Moons.Vec3, c: nat): int
  {
    if c == 0 then v.x else if c == 1 then v.y else v.z
  }

  /** The system after each of the steps 1 to `n`. */
  function Trajectory(ms: seq<Moons.Moon>, n: nat): (ts: seq<seq<Moons.Moon>>)
    ensures |ts| == n && forall t | 0 <= t < n :: |ts[t]| == |ms|
  {
    if n == 0 then [] else Trajectory(ms, n - 1) + [Moons.Steps(ms, n)]
  }

  /** Every state of the trajectory has at least four moons. */
  predicate Wide(ts: seq<seq<Moons.Moon>>)
  {
    forall t | 0 <= t < |ts| :: |ts[t]| >= 4
  }

  /** Coordinate `c` of the position of moon `k` in each state of a trajectory. */
  function History(ts: seq<seq<Moons.Moon>>, k: nat, c: nat): (h: seq<int>)
    requires forall t | 0 <= t < |ts| :: k < |ts[t]|
    ensures |h| == |ts|
  {
    seq(|ts|, t requires 0 <= t < |ts| => Coord(ts[t][k].pos, c))
  }

  /** The histories of coordinate `c` of moons 0 to 3: what `x_locs`, `y_locs` or `z_locs` holds. */
  function Histories(ts: seq<seq<Moons.Moon>>, c: nat): (hs: seq<seq<int>>)
    requires Wide(ts)
    ensures |hs| == 4 && forall k | 0 <= k < 4 :: |hs[k]| == |ts|
  {
    seq(4, k requires 0 <= k < 4 => History(ts, k, c))
  }

  /** One more entry on each of the four histories of coordinate `c`. */
  function Pushed(hs: seq<seq<int>>, moons: seq<Moons.Moon>, c: nat): seq<seq<int>>
    requires |hs| == 4 && |moons| >= 4
  {
    [hs[0] + [Coord(moons[0].pos, c)], hs[1] + [Coord(moons[1].pos, c)],
     hs[2] + [Coord(moons[2].pos, c)], hs[3] + [Coord(moons[3].pos, c)]]
  }

  /** A state added to the trajectory adds one entry to the end of each history. */
  lemma HistoriesStep(ts: seq<seq<Moons.Moon>>, s: seq<Moons.Moon>, c: nat)
    requires Wide(ts) && |s| >= 4
    ensures Wide(ts + [s])
    ensures Histories(ts + [s], c) == Pushed(Histories(ts, c), s, c)
  {
    var longer := Histories(ts + [s], c);
    var pushed := Pushed(Histories(ts, c), s, c);
    forall k | 0 <= k < 4
      ensures longer[k] == pushed[k]
    {
      assert longer[k] == History(ts + [s], k, c);
    }
  }

  /** One more step of a system of at least four moons pushes its positions onto the histories. */
  lemma TrajectoryGrows(ms: seq<Moons.Moon>, i: nat, current: seq<Moons.Moon>)
    requires |ms| >= 4 && current == Moons.Steps(ms, i + 1)
    ensures Wide(Trajectory(ms, i)) && Wide(Trajectory(ms, i + 1))
    ensures Histories(Trajectory(ms, i + 1), 0) == Pushed(Histories(Trajectory(ms, i), 0), current, 0)
    ensures Histories(Trajectory(ms, i + 1), 1) == Pushed(Histories(Trajectory(ms, i), 1), current, 1)
    ensures Histories(Trajectory(ms, i + 1), 2) == Pushed(Histories(Trajectory(ms, i), 2), current, 2)
  {
    var ts := Trajectory(ms, i);
    assert Trajectory(ms, i + 1) == ts + [current];
    HistoriesStep(ts, current, 0);
    HistoriesStep(ts, current, 1);
    HistoriesStep(ts, current, 2);
  }

  /** The pattern lengths of twelve histories, in the order x0, y0, z0, x1, ..., z3. */
  function PatternLengths(xs: seq<seq<int>>, ys: seq<seq<int>>, zs: seq<seq<int>>): (ls: seq<nat>)
    requires |xs| == 4 && |ys| == 4 && |zs| == 4
    ensures |ls| == 12
  {
    [PatternLength(xs[0]), PatternLength(ys[0]), PatternLength(zs[0]),
     PatternLength(xs[1]), PatternLength(ys[1]), PatternLength(zs[1]),
     PatternLength(xs[2]), PatternLength(ys[2]), PatternLength(zs[2]),
     PatternLength(xs[3]), PatternLength(ys[3]), PatternLength(zs[3])]
  }

  /**
   * What `calculate_repetition_period` answers for the trajectory `ts`: the
   * least common multiple of the pattern lengths of its twelve histories.
   */
  function RepetitionPeriod(ts: seq<seq<Moons.Moon>>): Option<nat>
    requires Wide(ts)
  {
    FoldLcm(PatternLengths(Histories(ts, 0), Histories(ts, 1), Histories(ts, 2)))
  }

  /**
   * For twelve histories of `n` entries each, the folded period exists
   * exactly when `n` is positive, and then every history's pattern length
   * divides it.
   */
  lemma {:induction false} FoldedPeriod(xs: seq<seq<int>>, ys: seq<seq<int>>, zs: seq<seq<int>>, n: nat)
    requires |xs| == 4 && |ys| == 4 && |zs| == 4
    requires forall k | 0 <= k < 4 :: |xs[k]| == n && |ys[k]| == n && |zs[k]| == n
    ensures FoldLcm(PatternLengths(xs, ys, zs)).Some? <==> n > 0
    ensures n > 0 ==> forall k | 0 <= k < 4 ::
      var period := FoldLcm(PatternLengths(xs, ys, zs)).value;
      Divides(PatternLength(xs[k]), period) && Divides(PatternLength(ys[k]), period) && Divides(PatternLength(zs[k]), period)
  {
    var ls := PatternLengths(xs, ys, zs);
    forall k | 0 <= k < 4
      ensures ls[3 * k] == PatternLength(xs[k]) && ls[3 * k + 1] == PatternLength(ys[k]) && ls[3 * k + 2] == PatternLength(zs[k])
      ensures n > 0 <==> PatternLength(xs[k]) > 0 && PatternLength(ys[k]) > 0 && PatternLength(zs[k]) > 0
    {
      PatternLengthPositive(xs[k]);
      PatternLengthPositive(ys[k]);
      PatternLengthPositive(zs[k]);
      if k == 0 {
      } else if k == 1 {
      } else if k == 2 {
      } else {
      }
    }
    if n == 0 {
      assert forall j | 0 <= j < 12 :: ls[j] == 0;
      FoldLcmZeros(ls);
    } else {
      assert forall j | 0 <= j < 12 :: ls[j] > 0;
      FoldLcmMultiple(ls);
    }
  }

  /**
   * The repetition period exists exactly when at least one step was taken,
   * and then the history of every coordinate of every one of the first four
   * moons repeats with a pattern whose length divides it.
   */
  lemma RepetitionPeriodMeaning(ts: seq<seq<Moons.Moon>>)
    requires Wide(ts)
    ensures RepetitionPeriod(ts).Some? <==> |ts| > 0
    ensures |ts| > 0 ==> forall k | 0 <= k < 4 ::
      var period := RepetitionPeriod(ts).value;
      && Divides(PatternLength(History(ts, k, 0)), period)
      && Divides(PatternLength(History(ts, k, 1)), period)
      && Divides(PatternLength(History(ts, k, 2)), period)
  {
    var xs, ys, zs := Histories(ts, 0), Histories(ts, 1), Histories(ts, 2);
    FoldedPeriod(xs, ys, zs, |ts|);
    assert forall k | 0 <= k < 4 :: xs[k] == History(ts, k, 0) && ys[k] == History(ts, k, 1) && zs[k] == History(ts, k, 2);
  }

  /** For twelve non-empty histories, the folded period divides every common multiple of their pattern lengths. */
  lemma {:induction false} FoldedPeriodLeast(xs: seq<seq<int>>, ys: seq<seq<int>>, zs: seq<seq<int>>, n: nat, c: nat)
    requires |xs| == 4 && |ys| == 4 && |zs| == 4 && n > 0
    requires forall k | 0 <= k < 4 :: |xs[k]| == n && |ys[k]| == n && |zs[k]| == n
    requires forall k | 0 <= k < 4 ::
      Divides(PatternLength(xs[k]), c) && Divides(PatternLength(ys[k]), c) && Divides(PatternLength(zs[k]), c)
    ensures FoldLcm(PatternLengths(xs, ys, zs)).Some? && Divides(FoldLcm(PatternLengths(xs, ys, zs)).value, c)
  {
    var ls := PatternLengths(xs, ys, zs);
    forall j | 0 <= j < 12
      ensures ls[j] > 0 && Divides(ls[j], c)
    {
      var k := j / 3;
      PatternLengthsAt(xs, ys, zs, k);
      PatternLengthPositive(xs[k]);
      PatternLengthPositive(ys[k]);
      PatternLengthPositive(zs[k]);
      assert j == 3 * k || j == 3 * k + 1 || j == 3 * k + 2;
    }
    FoldLcmLeast(ls, c);
  }

  /** Entries `3k`, `3k + 1` and `3k + 2` of the lengths belong to moon `k`'s x, y and z histories. */
  lemma PatternLengthsAt(xs: seq<seq<int>>, ys: seq<seq<int>>, zs: seq<seq<int>>, k: nat)
    requires |xs| == 4 && |ys| == 4 && |zs| == 4 && k < 4
    ensures var ls := PatternLengths(xs, ys, zs);
      ls[3 * k] == PatternLength(xs[k]) && ls[3 * k + 1] == PatternLength(ys[k]) && ls[3 * k + 2] == PatternLength(zs[k])
  {
    if k == 0 {
    } else if k == 1 {
    } else if k == 2 {
    } else {
    }
  }

  /**
   * The repetition period is the least period common to the histories: it
   * divides every number that each history's pattern length divides.
   */
  lemma RepetitionPeriodLeast(ts: seq<seq<Moons.Moon>>, c: nat)
    requires Wide(ts) && |ts| > 0
    requires forall k | 0 <= k < 4 ::
      && Divides(PatternLength(History(ts, k, 0)), c)
      && Divides(PatternLength(History(ts, k, 1)), c)
      && Divides(PatternLength(History(ts, k, 2)), c)
    ensures RepetitionPeriod(ts).Some? && Divides(RepetitionPeriod(ts).value, c)
  {
    var xs, ys, zs := Histories(ts, 0), Histories(ts, 1), Histories(ts, 2);
    assert forall k | 0 <= k < 4 :: xs[k] == History(ts, k, 0) && ys[k] == History(ts, k, 1) && zs[k] == History(ts, k, 2);
    FoldedPeriodLeast(xs, ys, zs, |ts|, c);
  }

  /**
   * `calculate_repetition_period`: runs `n` steps, recording each
   * coordinate of moons 0 to 3 after every step, then folds `lcm` over the
   * lengths of the twelve patterns. A line that does not parse, fewer than
   * four moons once a step is taken, or no step at all (an `lcm` of zero and
   * zero) panics (`None`).
   */
  method CalculateRepetitionPeriod(lines: seq<string>, n: nat) returns (r: Option<nat>)
    ensures r.Some? <==> Moons.AllParse(lines) && |lines| >= 4 && n > 0
    ensures r.Some? ==> r == RepetitionPeriod(Trajectory(Moons.InitialMoons(lines), n))
  {
    var parsed := Moons.ParseMoons(lines);
    if parsed.None? {
      return None;
    }
    ghost var ms := parsed.value;
    var moons := new Moons.Moon[|parsed.value|](k requires 0 <= k < |parsed.value| => parsed.value[k]);
    assert moons[..] == ms;
    var ok, xLocs, yLocs, zLocs := RecordPositions(moons, n, ms);
    if !ok {
      return None;
    }
    var lengths := Lengths(xLocs, yLocs, zLocs);
    r := FoldLengths(lengths);
    RepetitionPeriodMeaning(Trajectory(ms, n));
  }

  /**
   * The loop of `calculate_repetition_period`: `n` time steps, each
   * followed by pushing the x, y and z coordinates of moons 0 to 3 onto
   * their histories. An empty system (in the velocity step) or one with
   * fewer than four moons (in the indexing) panics (`ok` false).
   */
  method RecordPositions(moons: array<Moons.Moon>, n: nat, ghost ms: seq<Moons.Moon>)
    returns (ok: bool, xLocs: seq<seq<int>>, yLocs: seq<seq<int>>, zLocs: seq<seq<int>>)
    requires moons[..] == ms
    modifies moons
    ensures ok <==> n == 0 || |ms| >= 4
    ensures ok ==>
      var ts := Trajectory(ms, n);
      xLocs == Histories(ts, 0) && yLocs == Histories(ts, 1) && zLocs == Histories(ts, 2)
  {
    xLocs, yLocs, zLocs := [[], [], [], []], [[], [], [], []], [[], [], [], []];
    for i := 0 to n
      invariant moons.Length == |ms| && moons[..] == Moons.Steps(ms, i)
      invariant i > 0 ==> |ms| >= 4
      invariant i == 0 || |ms| >= 4 ==>
        var ts := Trajectory(ms, i);
        xLocs == Histories(ts, 0) && yLocs == Histories(ts, 1) && zLocs == Histories(ts, 2)
    {
      var stepped := Moons.CalculateVelocities(moons);
      if !stepped {
        return false, xLocs, yLocs, zLocs;
      }
      Moons.CalculateNewLocations(moons);
      if moons.Length < 4 {
        return false, xLocs, yLocs, zLocs;
      }
      var current := moons[..];
      TrajectoryGrows(ms, i, current);
      xLocs := Pushed(xLocs, current, 0);
      yLocs := Pushed(yLocs, current, 1);
      zLocs := Pushed(zLocs, current, 2);
    }
    return true, xLocs, yLocs, zLocs;
  }

  /** `lengths_vec.iter().fold(1, |acc, item| lcm(acc, item))`, stopping where `lcm` panics. */
  method FoldLengths(lengths: seq<nat>) returns (r: Option<nat>)
    ensures r == FoldLcm(lengths)
  {
    var acc: nat := 1;
    for j := 0 to |lengths|
      invariant FoldLcm(lengths[..j]) == Some(acc)
    {
      assert lengths[..j + 1][..j] == lengths[..j];
      var next := Lcm(acc, lengths[j]);
      if next.None? {
        FoldLcmPrefixNone(lengths, j + 1);
        return None;
      }
      acc := next.value;
    }
    assert lengths[..|lengths|] == lengths;
    return Some(acc);
  }

  /**
   * The pattern of each of the twelve histories, and the list of their
   * lengths in the order x0, y0, z0, x1, ..., z3.
   */
  method Lengths(xs: seq<seq<int>>, ys: seq<seq<int>>, zs: seq<seq<int>>) returns (ls: seq<nat>)
    requires |xs| == 4 && |ys| == 4 && |zs| == 4
    ensures ls == PatternLengths(xs, ys, zs)
  {
    var x0 := FindPattern(xs[0]);
    var x1 := FindPattern(xs[1]);
    var x2 := FindPattern(xs[2]);
    var x3 := FindPattern(xs[3]);
    var y0 := FindPattern(ys[0]);
    var y1 := FindPattern(ys[1]);
    var y2 := FindPattern(ys[2]);
    var y3 := FindPattern(ys[3]);
    var z0 := FindPattern(zs[0]);
    var z1 := FindPattern(zs[1]);
    var z2 := FindPattern(zs[2]);
    var z3 := FindPattern(zs[3]);
    ls := [|x0|, |y0|, |z0|, |x1|, |y1|, |z1|, |x2|, |y2|, |z2|, |x3|, |y3|, |z3|];
  }
}
