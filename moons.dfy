/**
 * Day 12: the n-body simulation of Jupiter's moons. Each moon has a position
 * and a velocity in three integer dimensions. A time step first applies
 * gravity to every pair of moons (each velocity component moves by one
 * towards the other moon's coordinate) and then adds every velocity to its
 * position. The moon list is mutated in place in the source and is an array
 * here. Coordinates are `i32` in the source; the model uses unbounded
 * integers.
 */
module Moons {
  import opened Outcomes
  import Text

  datatype Vec3 = Vec3(x: int, y: int, z: int)

  const Zero: Vec3 := Vec3(0, 0, 0)

  // The components are bound first: written as `Vec3(a.x + b.x, ...)`, an
  // equation between sums of constant vectors sends the solver into a loop.
  function Add(a: Vec3, b: Vec3): Vec3
  {
    var (ax, ay, az) := (a.x, a.y, a.z);
    Vec3(ax + b.x, ay + b.y, az + b.z)
  }

  function Neg(a: Vec3): Vec3
  {
    var (ax, ay, az) := (a.x, a.y, a.z);
    Vec3(-ax, -ay, -az)
  }

  datatype Moon = Moon(pos: Vec3, vel: Vec3)

  /** The sum of the absolute values of the components. */
  function AbsSum(v: Vec3): nat
  {
    Abs(v.x) + Abs(v.y) + Abs(v.z)
  }

  function PotentialEnergy(m: Moon): nat
  {
    AbsSum(m.pos)
  }

  function KineticEnergy(m: Moon): nat
  {
    AbsSum(m.vel)
  }

  function TotalEnergy(m: Moon): nat
  {
    Product(PotentialEnergy(m), KineticEnergy(m))
  }

  /** A moon has no energy exactly when it sits at the origin or stands still. */
  lemma EnergyZero(m: Moon)
    ensures TotalEnergy(m) == 0 <==> m.pos == Zero || m.vel == Zero
  {
    assert PotentialEnergy(m) == 0 <==> m.pos == Zero;
    assert KineticEnergy(m) == 0 <==> m.vel == Zero;
    ProductZero(PotentialEnergy(m), KineticEnergy(m));
  }

  lemma ProductZero(p: nat, k: nat)
    ensures Product(p, k) == 0 <==> p == 0 || k == 0
  {
    if p > 0 && k > 0 {
      assert p * k >= k by {
        assert p * k == (p - 1) * k + k;
      }
    }
  }

  /** The energy of every moon of the system, added up. */
  function SystemEnergy(ms: seq<Moon>): nat
  {
    if ms == [] then 0 else SystemEnergy(ms[..|ms| - 1]) + TotalEnergy(ms[|ms| - 1])
  }

  /** How `a.cmp(&b)` steers the velocity of the moon at `a`: 1, 0 or -1. */
  function Towards(a: int, b: int): int
  {
    if a < b then 1 else if a == b then 0 else -1
  }

  /** The change gravity from a moon at `other` makes to the velocity of a moon at `self`. */
  function Pull(self: Vec3, other: Vec3): Vec3
  {
    Vec3(Towards(self.x, other.x), Towards(self.y, other.y), Towards(self.z, other.z))
  }

  /** Gravity is mutual: the pull on the other moon is the opposite one; a moon does not pull itself. */
  lemma PullAntisymmetric(a: Vec3, b: Vec3)
    ensures Pull(b, a) == Neg(Pull(a, b))
    ensures Pull(a, a) == Zero
  {
  }

  /**
   * `step_gravity`: the two moons after `self.step_gravity(pair)`. Both are
   * updated in place in the source; here the pair is returned.
   */
  function StepGravity(self: Moon, pair: Moon): (Moon, Moon)
  {
    var d := Pull(self.pos, pair.pos);
    (Moon(self.pos, Add(self.vel, d)), Moon(pair.pos, Add(pair.vel, Neg(d))))
  }

  /**
   * One gravity step leaves positions alone, keeps the sum of the two
   * velocities, and moves each velocity component of each moon by at most
   * one, towards the other moon's coordinate.
   */
  lemma StepGravityMeaning(self: Moon, pair: Moon)
    ensures var (a, b) := StepGravity(self, pair);
      && a.pos == self.pos && b.pos == pair.pos
      && Add(a.vel, b.vel) == Add(self.vel, pair.vel)
      && (a.vel.x - self.vel.x) * (pair.pos.x - self.pos.x) >= 0
      && (b.vel.x - pair.vel.x) * (self.pos.x - pair.pos.x) >= 0
      && Abs(a.vel.x - self.vel.x) <= 1 && Abs(a.vel.y - self.vel.y) <= 1 && Abs(a.vel.z - self.vel.z) <= 1
      && (self.pos.x == pair.pos.x <==> a.vel.x == self.vel.x)
  {
  }

  /** The pull on moon `k` from the first `upto` moons. */
  function PullFrom(ms: seq<Moon>, k: nat, upto: nat): Vec3
    requires k < |ms| && upto <= |ms|
  {
    if upto == 0 then Zero else Add(PullFrom(ms, k, upto - 1), Pull(ms[k].pos, ms[upto - 1].pos))
  }

  /** The system after gravity: every moon's velocity changed by the pull of all the moons. */
  function Attracted(ms: seq<Moon>): (r: seq<Moon>)
    ensures |r| == |ms|
  {
    seq(|ms|, k requires 0 <= k < |ms| => Moon(ms[k].pos, Add(ms[k].vel, PullFrom(ms, k, |ms|))))
  }

  /** The system after velocity: every moon moved by its velocity. */
  function Drifted(ms: seq<Moon>): (r: seq<Moon>)
    ensures |r| == |ms|
  {
    seq(|ms|, k requires 0 <= k < |ms| => Moon(Add(ms[k].pos, ms[k].vel), ms[k].vel))
  }

  /** The system after `n` time steps. */
  function Steps(ms: seq<Moon>, n: nat): (r: seq<Moon>)
    ensures |r| == |ms|
  {
    if n == 0 then ms else Drifted(Attracted(Steps(ms, n - 1)))
  }

  /** The velocities of the first `upto` moons, added up. */
  function Momentum(ms: seq<Moon>, upto: nat): Vec3
    requires upto <= |ms|
  {
    if upto == 0 then Zero else Add(Momentum(ms, upto - 1), ms[upto - 1].vel)
  }

  /** The pulls of the first `upto` moons on each of the first `count` moons, added up. */
  function PullTotal(ms: seq<Moon>, count: nat, upto: nat): Vec3
    requires count <= |ms| && upto <= |ms|
  {
    if count == 0 then Zero else Add(PullTotal(ms, count - 1, upto), PullFrom(ms, count - 1, upto))
  }

  /** The pulls of moon `j` on each of the first `count` moons, added up. */
  function PullsOf(ms: seq<Moon>, j: nat, count: nat): Vec3
    requires j < |ms| && count <= |ms|
  {
    if count == 0 then Zero else Add(PullsOf(ms, j, count - 1), Pull(ms[count - 1].pos, ms[j].pos))
  }

  /** Letting one more moon pull adds its pull on each moon. */
  lemma {:induction false} PullTotalStep(ms: seq<Moon>, count: nat, upto: nat)
    requires count <= |ms| && upto < |ms|
    ensures PullTotal(ms, count, upto + 1) == Add(PullTotal(ms, count, upto), PullsOf(ms, upto, count))
  {
    if count > 0 {
      PullTotalStep(ms, count - 1, upto);
    }
  }

  /** What moon `j` pulls the first `count` moons by is the opposite of what they pull it by. */
  lemma {:induction false} PullsOfOpposite(ms: seq<Moon>, j: nat, count: nat)
    requires j < |ms| && count <= |ms|
    ensures PullsOf(ms, j, count) == Neg(PullFrom(ms, j, count))
  {
    if count > 0 {
      PullsOfOpposite(ms, j, count - 1);
      PullAntisymmetric(ms[j].pos, ms[count - 1].pos);
    }
  }

  /** Among any first `n` moons, the pulls cancel out. */
  lemma {:induction false} PullsCancel(ms: seq<Moon>, n: nat)
    requires n <= |ms|
    ensures PullTotal(ms, n, n) == Zero
  {
    if n > 0 {
      PullsCancel(ms, n - 1);
      PullTotalStep(ms, n - 1, n - 1);
      PullsOfOpposite(ms, n - 1, n - 1);
      PullAntisymmetric(ms[n - 1].pos, ms[n - 1].pos);
    }
  }

  /** Momentum after gravity is momentum before plus all the pulls. */
  lemma {:induction false} MomentumAttracted(ms: seq<Moon>, count: nat)
    requires count <= |ms|
    ensures Momentum(Attracted(ms), count) == Add(Momentum(ms, count), PullTotal(ms, count, |ms|))
  {
    if count > 0 {
      MomentumAttracted(ms, count - 1);
    }
  }

  /** Momentum is a function of the velocities alone. */
  lemma {:induction false} MomentumSameVelocities(a: seq<Moon>, b: seq<Moon>, count: nat)
    requires count <= |a| == |b|
    requires forall k | 0 <= k < |a| :: a[k].vel == b[k].vel
    ensures Momentum(a, count) == Momentum(b, count)
  {
    if count > 0 {
      MomentumSameVelocities(a, b, count - 1);
    }
  }

  /** Time steps never change the total velocity of the system. */
  lemma {:induction false} MomentumConserved(ms: seq<Moon>, n: nat)
    ensures Momentum(Steps(ms, n), |ms|) == Momentum(ms, |ms|)
  {
    if n > 0 {
      var before := Steps(ms, n - 1);
      MomentumConserved(ms, n - 1);
      MomentumAttracted(before, |before|);
      PullsCancel(before, |before|);
      MomentumSameVelocities(Drifted(Attracted(before)), Attracted(before), |ms|);
    }
  }

  /**
   * How far the gravity loop has got with moon `k` while the outer loop is
   * at `i` and the inner one at `j`: every moon before `i` has met all
   * moons, moon `i` the moons before `j`, the moons after `i` the moons
   * up to and including `i` once their pair with `i` has been handled.
   */
  function Reached(k: nat, i: nat, j: nat, n: nat): (r: nat)
    requires i < n && j <= n
    ensures r <= n
  {
    if k < i then n else if k == i then j else if k < j then i + 1 else i
  }

  /** The moons `cur` are the moons `ms` with the pairs up to (`i`, `j`) handled. */
  ghost predicate Progress(ms: seq<Moon>, cur: seq<Moon>, i: nat, j: nat)
    requires i < |ms| && j <= |ms|
  {
    && |cur| == |ms|
    // Triggered on `cur[k]` alone: `PullFrom` unfolds into further `ms[_]` terms.
    && forall k {:trigger cur[k]} | 0 <= k < |ms| ::
         cur[k].pos == ms[k].pos && cur[k].vel == Add(ms[k].vel, PullFrom(ms, k, Reached(k, i, j, |ms|)))
  }

  /** Handling pair (`i`, `j`) with `step_gravity` moves the progress on to the next pair. */
  lemma ProgressStep(ms: seq<Moon>, cur: seq<Moon>, next: seq<Moon>, i: nat, j: nat)
    requires i < j < |ms| && Progress(ms, cur, i, j)
    requires |next| == |cur| && next[i] == StepGravity(cur[i], cur[j]).0 && next[j] == StepGravity(cur[i], cur[j]).1
    requires forall k | 0 <= k < |cur| && k != i && k != j :: next[k] == cur[k]
    ensures Progress(ms, next, i, j + 1)
  {
    var n := |ms|;
    var d := Pull(ms[i].pos, ms[j].pos);
    assert next[i] == Moon(ms[i].pos, Add(Add(ms[i].vel, PullFrom(ms, i, j)), d));
    assert next[j] == Moon(ms[j].pos, Add(Add(ms[j].vel, PullFrom(ms, j, i)), Neg(d)));
    PullOnFirst(ms, i, j);
    PullOnSecond(ms, i, j);
    forall k | 0 <= k < n
      ensures next[k].pos == ms[k].pos && next[k].vel == Add(ms[k].vel, PullFrom(ms, k, Reached(k, i, j + 1, n)))
    {
      if k == i {
        assert Reached(k, i, j + 1, n) == j + 1;
      } else if k == j {
        assert Reached(k, i, j + 1, n) == i + 1;
      } else {
        assert Reached(k, i, j + 1, n) == Reached(k, i, j, n);
        assert next[k] == cur[k];
      }
    }
  }

  /** The pull of moon `j` on moon `i` completes the pulls on `i` up to `j`. */
  lemma PullOnFirst(ms: seq<Moon>, i: nat, j: nat)
    requires i < |ms| && j < |ms|
    ensures Add(Add(ms[i].vel, PullFrom(ms, i, j)), Pull(ms[i].pos, ms[j].pos)) == Add(ms[i].vel, PullFrom(ms, i, j + 1))
  {
    AddAssoc(ms[i].vel, PullFrom(ms, i, j), Pull(ms[i].pos, ms[j].pos));
  }

  /** Taking away the pull of moon `j` on moon `i` adds the pull of `i` on `j`. */
  lemma PullOnSecond(ms: seq<Moon>, i: nat, j: nat)
    requires i < |ms| && j < |ms|
    ensures Add(Add(ms[j].vel, PullFrom(ms, j, i)), Neg(Pull(ms[i].pos, ms[j].pos))) == Add(ms[j].vel, PullFrom(ms, j, i + 1))
  {
    PullAntisymmetric(ms[i].pos, ms[j].pos);
    AddAssoc(ms[j].vel, PullFrom(ms, j, i), Pull(ms[j].pos, ms[i].pos));
  }

  lemma AddAssoc(a: Vec3, b: Vec3, c: Vec3)
    ensures Add(Add(a, b), c) == Add(a, Add(b, c))
  {
  }

  /** Moon `i` does not pull itself, so the inner loop can start past it. */
  lemma ProgressSkip(ms: seq<Moon>, cur: seq<Moon>, i: nat)
    requires i < |ms| && Progress(ms, cur, i, i)
    ensures Progress(ms, cur, i, i + 1)
  {
    PullAntisymmetric(ms[i].pos, ms[i].pos);
  }

  /** Once moon `i` has met every moon, the outer loop moves on to `i + 1`. */
  lemma ProgressNext(ms: seq<Moon>, cur: seq<Moon>, i: nat)
    requires i + 1 < |ms| && Progress(ms, cur, i, |ms|)
    ensures Progress(ms, cur, i + 1, i + 1)
  {
    forall k | 0 <= k < |ms|
      ensures Reached(k, i + 1, i + 1, |ms|) == Reached(k, i, |ms|, |ms|)
    {
    }
  }

  /** With the last pair handled, the moons are the attracted system. */
  lemma ProgressDone(ms: seq<Moon>, cur: seq<Moon>)
    requires |ms| > 0 && Progress(ms, cur, |ms| - 1, |ms| - 1)
    ensures cur == Attracted(ms)
  {
    var n := |ms|;
    ProgressSkip(ms, cur, n - 1);
    assert forall k | 0 <= k < n :: cur[k] == Attracted(ms)[k];
  }

  /**
   * `calculate_velocities`: `step_gravity` on every pair `i < j`. The moon
   * list afterwards is the attracted system. The source computes
   * `moons.len() - 1` in `usize`, which panics on an empty list (`ok`
   * false).
   */
  method CalculateVelocities(moons: array<Moon>) returns (ok: bool)
    modifies moons
    ensures ok <==> moons.Length > 0
    ensures moons[..] == Attracted(old(moons[..]))
  {
    if moons.Length == 0 {
      return false;
    }
    ghost var ms := moons[..];
    var n := moons.Length;
    for i := 0 to n - 1
      invariant Progress(ms, moons[..], i, i)
    {
      PullPairsOf(moons, i, ms);
    }
    ProgressDone(ms, moons[..]);
    return true;
  }

  /** The inner loop of `calculate_velocities`: `step_gravity` of moon `i` with every later moon. */
  method PullPairsOf(moons: array<Moon>, i: nat, ghost ms: seq<Moon>)
    requires i + 1 < moons.Length == |ms| && Progress(ms, moons[..], i, i)
    modifies moons
    ensures Progress(ms, moons[..], i + 1, i + 1)
  {
    ProgressSkip(ms, moons[..], i);
    for j := i + 1 to moons.Length
      invariant Progress(ms, moons[..], i, j)
    {
      ghost var cur := moons[..];
      var (a, b) := StepGravity(moons[i], moons[j]);
      moons[i] := a;
      moons[j] := b;
      ProgressStep(ms, cur, moons[..], i, j);
    }
    ProgressNext(ms, moons[..], i);
  }

  /** `calculate_new_locations`: every moon moves by its velocity. */
  method CalculateNewLocations(moons: array<Moon>)
    modifies moons
    ensures moons[..] == Drifted(old(moons[..]))
  {
    for k := 0 to moons.Length
      invariant forall h | 0 <= h < k :: moons[h] == Drifted(old(moons[..]))[h]
      invariant forall h | k <= h < moons.Length :: moons[h] == old(moons[h])
    {
      moons[k] := Moon(Add(moons[k].pos, moons[k].vel), moons[k].vel);
    }
  }

  /**
   * `full_steps_n`: `n` time steps, gravity then velocity. Any step on an
   * empty list panics in `calculate_velocities` (`ok` false).
   */
  method FullStepsN(moons: array<Moon>, n: nat) returns (ok: bool)
    modifies moons
    ensures ok <==> n == 0 || moons.Length > 0
    ensures moons[..] == Steps(old(moons[..]), n)
  {
    ok := true;
    for i := 0 to n
      invariant moons[..] == Steps(old(moons[..]), i)
      invariant ok <==> i == 0 || moons.Length > 0
    {
      var attracted := CalculateVelocities(moons);
      ok := attracted;
      CalculateNewLocations(moons);
    }
  }

  /** The separators `coord_parser` splits on. */
  const Separators: set<char> := {'=', ',', '>', '<', '\n'}

  /** A piece's contribution to the coordinate vector: its value if it parses as an `i32`. */
  function Parsed(piece: string): seq<int>
  {
    match Text.ParseInt(piece, Text.I32Min, Text.I32Max)
    case Some(v) => [v]
    case None => []
  }

  /** The pieces that parse as `i32`, in order. */
  function Numbers(pieces: seq<string>): seq<int>
  {
    if pieces == [] then [] else Numbers(pieces[..|pieces| - 1]) + Parsed(pieces[|pieces| - 1])
  }

  /** The numbers of two runs of pieces are those of the first followed by those of the second. */
  lemma {:induction false} NumbersAppend(a: seq<string>, b: seq<string>)
    ensures Numbers(a + b) == Numbers(a) + Numbers(b)
    decreases |b|
  {
    if b == [] {
      assert a + b == a;
    } else {
      var front := b[..|b| - 1];
      assert (a + b)[..|a + b| - 1] == a + front;
      NumbersAppend(a, front);
    }
  }

  /** The first three numbers of a coordinate line, or `None` where indexing the vector panics. */
  function Coordinates(s: string): Option<Vec3>
  {
    var nums := Numbers(Text.SplitTerminatorAny(s, Separators));
    if |nums| < 3 then None else Some(Vec3(nums[0], nums[1], nums[2]))
  }

  /**
   * `coord_parser`: splits the line on the separators, keeps every piece
   * that parses as an `i32`, and takes the first three.
   */
  method CoordParser(s: string) returns (r: Option<Vec3>)
    ensures r == Coordinates(s)
  {
    var pieces := Text.SplitTerminatorAny(s, Separators);
    var vector := ParsePieces(pieces);
    if |vector| < 3 {
      return None;
    }
    return Some(Vec3(vector[0], vector[1], vector[2]));
  }

  /** The `filter_map` of `coord_parser`: every piece that parses as an `i32`, in order. */
  method ParsePieces(pieces: seq<string>) returns (vector: seq<int>)
    ensures vector == Numbers(pieces)
  {
    vector := [];
    for i := 0 to |pieces|
      invariant vector == Numbers(pieces[..i])
    {
      assert pieces[..i + 1][..i] == pieces[..i];
      var parsed := Text.ParseInt(pieces[i], Text.I32Min, Text.I32Max);
      if parsed.Some? {
        vector := vector + [parsed.value];
      }
    }
    assert pieces[..|pieces|] == pieces;
  }

  /** `a`, then the separator `x`, then `b`. */
  function Glue(a: string, x: char, b: string): string
  {
    a + [x] + b
  }

  /** The puzzle's line for a position, such as `<x=17, y=-9, z=4>`. */
  function Format(v: Vec3): string
  {
    Glue("", '<', Glue("x", '=', Glue(Text.Show(v.x), ',', Glue(" y", '=', Glue(Text.Show(v.y), ',',
      Glue(" z", '=', Glue(Text.Show(v.z), '>', "")))))))
  }

  predicate InI32(v: Vec3)
  {
    Text.I32Min <= v.x <= Text.I32Max && Text.I32Min <= v.y <= Text.I32Max && Text.I32Min <= v.z <= Text.I32Max
  }

  /** A rendered number holds no separator. */
  lemma ShowFree(n: int)
    ensures forall i | 0 <= i < |Text.Show(n)| :: Text.Show(n)[i] !in Separators
  {
    var d := Text.Natural(if n < 0 then -n else n);
    assert forall i | 0 <= i < |d| :: Text.IsDigit(d[i]);
    if n < 0 {
      assert forall i | 1 <= i < |Text.Show(n)| :: Text.Show(n)[i] == d[i - 1];
    }
  }

  /** A separator-free piece, then a separator: the piece's number comes first. */
  lemma NumbersGlue(a: string, x: char, b: string)
    requires forall i | 0 <= i < |a| :: a[i] !in Separators
    requires x in Separators
    ensures Numbers(Text.SplitAny(Glue(a, x, b), Separators)) == Parsed(a) + Numbers(Text.SplitAny(b, Separators))
  {
    var rest := Text.SplitAny(b, Separators);
    assert Text.SplitAny(Glue(a, x, b), Separators) == [a] + rest by {
      Text.SplitAnyFirst(a, x, b, Separators);
    }
    assert Numbers([a]) == Parsed(a) by {
      assert [a][..0] == [];
      assert [] + Parsed(a) == Parsed(a);
    }
    NumbersAppend([a], rest);
  }

  /** Dropping a trailing empty piece drops no number. */
  lemma NumbersTerminator(s: string)
    ensures Numbers(Text.SplitTerminatorAny(s, Separators)) == Numbers(Text.SplitAny(s, Separators))
  {
    var p := Text.SplitAny(s, Separators);
    if p[|p| - 1] == "" {
      assert p == p[..|p| - 1] + [""];
      NumbersAppend(p[..|p| - 1], [""]);
      assert Numbers([""]) == [] by {
        assert [""][..0] == [];
      }
    }
  }

  /** The labels between the numbers parse as nothing and hold no separator. */
  lemma Labels()
    ensures Parsed("") == [] && Parsed("x") == [] && Parsed(" y") == [] && Parsed(" z") == []
    ensures forall c | c in "x" + " y" + " z" :: c !in Separators
  {
    assert !Text.IsDigit("x"[0]) && !Text.IsDigit(" y"[0]) && !Text.IsDigit(" z"[0]);
  }

  /** A rendered `i32` parses back to itself. */
  lemma ParsedShow(n: int)
    requires Text.I32Min <= n <= Text.I32Max
    ensures Parsed(Text.Show(n)) == [n]
  {
    Text.ParseShow(n, Text.I32Min, Text.I32Max);
  }

  /** The numbers in `, z=<z>>`-style tails: everything from the `y` label on. */
  lemma TailNumbers(v: Vec3)
    requires InI32(v)
    ensures Numbers(Text.SplitAny(Glue(" y", '=', Glue(Text.Show(v.y), ',', Glue(" z", '=', Glue(Text.Show(v.z), '>', "")))), Separators))
      == [v.y, v.z]
  {
    var sy, sz := Text.Show(v.y), Text.Show(v.z);
    var s6 := Glue(sz, '>', "");
    var s5 := Glue(" z", '=', s6);
    var s4 := Glue(sy, ',', s5);
    assert Numbers(Text.SplitAny(s6, Separators)) == [v.z] by {
      ShowFree(v.z);
      ParsedShow(v.z);
      NumbersGlue(sz, '>', "");
      assert Numbers(Text.SplitAny("", Separators)) == [] by {
        assert [""][..0] == [];
      }
    }
    assert Numbers(Text.SplitAny(s5, Separators)) == [v.z] by {
      Labels();
      NumbersGlue(" z", '=', s6);
    }
    assert Numbers(Text.SplitAny(s4, Separators)) == [v.y, v.z] by {
      ShowFree(v.y);
      ParsedShow(v.y);
      NumbersGlue(sy, ',', s5);
    }
    Labels();
    NumbersGlue(" y", '=', s4);
  }

  /** Parsing a rendered coordinate line gives the position back. */
  lemma CoordinatesFormat(v: Vec3)
    requires InI32(v)
    ensures Coordinates(Format(v)) == Some(v)
  {
    var sx := Text.Show(v.x);
    var s3 := Glue(" y", '=', Glue(Text.Show(v.y), ',', Glue(" z", '=', Glue(Text.Show(v.z), '>', ""))));
    var s2 := Glue(sx, ',', s3);
    var s1 := Glue("x", '=', s2);
    TailNumbers(v);
    ShowFree(v.x);
    Labels();
    ParsedShow(v.x);
    NumbersGlue(sx, ',', s3);
    NumbersGlue("x", '=', s2);
    NumbersGlue("", '<', s1);
    NumbersTerminator(Format(v));
  }

  /** The first moon of the puzzle's sample parses to (17, -9, 4). */
  lemma SampleCoordinates()
    ensures Coordinates("<x=17, y=-9, z=4>") == Some(Vec3(17, -9, 4))
  {
    var v := Vec3(17, -9, 4);
    assert Text.Show(17) == "17" && Text.Show(-9) == "-9" && Text.Show(4) == "4";
    assert Format(v) == "<x=17, y=-9, z=4>";
    CoordinatesFormat(v);
  }

  /** `Moon::new`: the parsed position, standing still. */
  method NewMoon(s: string) returns (r: Option<Moon>)
    ensures r.Some? <==> Coordinates(s).Some?
    ensures r.Some? ==> r.value.pos == Coordinates(s).value && r.value.vel == Zero
  {
    var pos := CoordParser(s);
    if pos.None? {
      return None;
    }
    return Some(Moon(pos.value, Zero));
  }

  /** Every line holds a position. */
  predicate AllParse(lines: seq<string>)
  {
    forall i | 0 <= i < |lines| :: Coordinates(lines[i]).Some?
  }

  /** The moons the lines describe, each standing still at its position. */
  function InitialMoons(lines: seq<string>): (ms: seq<Moon>)
    requires AllParse(lines)
    ensures |ms| == |lines|
  {
    seq(|lines|, i requires 0 <= i < |lines| => Moon(Coordinates(lines[i]).value, Zero))
  }

  /** `parse_moons`: one moon per line, in order; a line that does not parse panics. */
  method ParseMoons(lines: seq<string>) returns (r: Option<seq<Moon>>)
    ensures r.Some? <==> AllParse(lines)
    ensures r.Some? ==> r.value == InitialMoons(lines)
  {
    var moons := [];
    for i := 0 to |lines|
      invariant |moons| == i
      invariant forall h | 0 <= h < i :: Coordinates(lines[h]).Some? && moons[h] == Moon(Coordinates(lines[h]).value, Zero)
    {
      var moon := NewMoon(lines[i]);
      if moon.None? {
        return None;
      }
      moons := moons + [moon.value];
    }
    assert forall h | 0 <= h < |lines| :: moons[h] == InitialMoons(lines)[h];
    return Some(moons);
  }

  /**
   * `calculate_total_energy`: the energy of the system after `n` steps;
   * `None` where parsing or an empty system panics.
   */
  method CalculateTotalEnergy(lines: seq<string>, n: nat) returns (r: Option<nat>)
    ensures r.Some? <==> AllParse(lines) && (n == 0 || |lines| > 0)
    ensures r.Some? ==> r.value == SystemEnergy(Steps(InitialMoons(lines), n))
  {
    var parsed := ParseMoons(lines);
    if parsed.None? {
      return None;
    }
    var ms := parsed.value;
    var moons := new Moon[|ms|](i requires 0 <= i < |ms| => ms[i]);
    assert moons[..] == ms;
    var ok := FullStepsN(moons, n);
    if !ok {
      return None;
    }
    return Some(SystemEnergy(moons[..]));
  }
}
