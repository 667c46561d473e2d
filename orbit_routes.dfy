/**
 * Day 6, second half: the route from the universal centre of mass down to a
 * name, as `rec_find_ancestors` collects it by a depth-first search that
 * pushes each name on a shared vector and pops it again unless the search
 * below it reached the target; the last name two routes share; and the
 * number of orbital transfers between the objects two names orbit.
 */
module OrbitRoutes {
  import opened Outcomes
  import opened Orbits
  import opened OrbitCount

  /** `y` is listed among the orbiters of `c`. */
  ghost predicate OrbitsAround(m: OrbitMap, c: string, y: string)
  {
    c in m && y in m[c]
  }

  /** Each name after the first orbits the one before it. */
  ghost predicate Chain(m: OrbitMap, p: seq<string>)
  {
    forall k | 0 <= k < |p| - 1 :: OrbitsAround(m, p[k], p[k + 1])
  }

  /**
   * What the search from `x` leaves behind it: `x` followed by what the
   * searches from its orbiters leave, kept only when something below reached
   * `target`; just `x` when `x` is the target.
   */
  function Route(m: OrbitMap, rank: map<string, nat>, x: string, target: string): (r: seq<string>)
    requires Ranked(m, rank)
    ensures r == [] || (r[0] == x && r[|r| - 1] == target)
    decreases if x in rank then rank[x] else 0, 1
  {
    if x == target then [x]
    else if x !in m then []
    else
      var below := RouteList(m, rank, x, |m[x]|, target);
      if below == [] then [] else [x] + below
  }

  /** What the searches from the first `n` orbiters of `x` leave, one after the other. */
  function RouteList(m: OrbitMap, rank: map<string, nat>, x: string, n: nat, target: string): (r: seq<string>)
    requires Ranked(m, rank) && x in m && n <= |m[x]|
    ensures r == [] || r[|r| - 1] == target
    decreases rank[x], 0, n
  {
    if n == 0 then []
    else RouteList(m, rank, x, n - 1, target) + Route(m, rank, m[x][n - 1], target)
  }

  /**
   * `rec_find_ancestors`: appends to `resultVec` the name itself when it is
   * the target, nothing more once the search is complete, and otherwise the
   * route from it down to the target (nothing when there is none).
   */
  method RecFindAncestors(currentPlanet: string, orbitMap: OrbitMap, ghost rank: map<string, nat>, targetPlanet: string,
                          complete: bool, resultVec: seq<string>) returns (resultVec': seq<string>)
    requires Ranked(orbitMap, rank)
    ensures resultVec' == resultVec + if complete && currentPlanet != targetPlanet then []
                                      else Route(orbitMap, rank, currentPlanet, targetPlanet)
    decreases if currentPlanet in rank then rank[currentPlanet] else 0, 1
  {
    var done := complete;
    resultVec' := resultVec;
    if currentPlanet == targetPlanet {
      resultVec' := resultVec' + [currentPlanet];
      done := true;
    }
    if !done {
      resultVec' := resultVec' + [currentPlanet];
      if currentPlanet !in orbitMap {
        resultVec' := resultVec'[..|resultVec'| - 1];
        assert resultVec' == resultVec;
      } else {
        resultVec' := SearchOrbiters(currentPlanet, orbitMap, rank, targetPlanet, resultVec');
        ghost var below := RouteList(orbitMap, rank, currentPlanet, |orbitMap[currentPlanet]|, targetPlanet);
        Regroup(resultVec, [currentPlanet], below);
        if resultVec'[|resultVec'| - 1] != targetPlanet {
          assert below == [];
          resultVec' := resultVec'[..|resultVec'| - 1];
          assert resultVec' == resultVec;
        } else {
          assert below != [];
        }
      }
    }
  }

  /** The loop of `rec_find_ancestors` over the orbiters of `currentPlanet`: each search appends what it leaves. */
  method SearchOrbiters(currentPlanet: string, orbitMap: OrbitMap, ghost rank: map<string, nat>, targetPlanet: string,
                        resultVec: seq<string>) returns (resultVec': seq<string>)
    requires Ranked(orbitMap, rank) && currentPlanet in orbitMap
    ensures resultVec' == resultVec + RouteList(orbitMap, rank, currentPlanet, |orbitMap[currentPlanet]|, targetPlanet)
    decreases rank[currentPlanet], 0
  {
    var orbiters := orbitMap[currentPlanet];
    resultVec' := resultVec;
    for i := 0 to |orbiters|
      invariant resultVec' == resultVec + RouteList(orbitMap, rank, currentPlanet, i, targetPlanet)
    {
      ghost var before, found := RouteList(orbitMap, rank, currentPlanet, i, targetPlanet), Route(orbitMap, rank, orbiters[i], targetPlanet);
      resultVec' := RecFindAncestors(orbiters[i], orbitMap, rank, targetPlanet, false, resultVec');
      Regroup(resultVec, before, found);
    }
  }

  /** Appending to a vector piece by piece appends the pieces joined. */
  lemma Regroup(a: seq<string>, b: seq<string>, c: seq<string>)
    ensures (a + b) + c == a + (b + c)
  {
  }

  /** A name orbits at most one centre in a tree. */
  lemma OneCentre(m: OrbitMap, k1: string, k2: string, y: string)
    requires Tree(m) && k1 in m && k2 in m && y in m[k1] && y in m[k2]
    ensures k1 == k2
  {
    var i :| 0 <= i < |m[k1]| && m[k1][i] == y;
    var j :| 0 <= j < |m[k2]| && m[k2][j] == y;
    assert Apart(m, k1, k2);
  }

  /** A piece of a chain is a chain. */
  lemma ChainSlice(m: OrbitMap, p: seq<string>, i: nat, j: nat)
    requires Chain(m, p) && i <= j <= |p|
    ensures Chain(m, p[i..j])
  {
    forall k | 0 <= k < j - i - 1 ensures OrbitsAround(m, p[i..j][k], p[i..j][k + 1]) {
      assert OrbitsAround(m, p[i + k], p[i + k + 1]);
    }
  }

  /** Going down a chain of two names or more, the rank strictly falls. */
  lemma {:induction false} ChainRank(m: OrbitMap, rank: map<string, nat>, p: seq<string>)
    requires Ranked(m, rank) && Chain(m, p) && |p| >= 2
    ensures p[0] in rank && p[|p| - 1] in rank && rank[p[0]] > rank[p[|p| - 1]]
    decreases |p|
  {
    var n := |p|;
    var c := p[n - 2];
    assert OrbitsAround(m, c, p[n - 1]);
    var i :| 0 <= i < |m[c]| && m[c][i] == p[n - 1];
    if n > 2 {
      ChainSlice(m, p, 0, n - 1);
      ChainRank(m, rank, p[..n - 1]);
    }
  }

  /** In a tree two chains that end at the same name agree from the shorter one's start: it is a suffix of the longer one. */
  lemma {:induction false} ChainsMeet(m: OrbitMap, p: seq<string>, q: seq<string>)
    requires Tree(m) && Chain(m, p) && Chain(m, q)
    requires 1 <= |p| <= |q| && p[|p| - 1] == q[|q| - 1]
    ensures p == q[|q| - |p|..]
    decreases |p|
  {
    var n, l := |p|, |q|;
    if n > 1 {
      OneCentre(m, p[n - 2], q[l - 2], p[n - 1]);
      ChainSlice(m, p, 0, n - 1);
      ChainSlice(m, q, 0, l - 1);
      ChainsMeet(m, p[..n - 1], q[..l - 1]);
      assert p == p[..n - 1] + [p[n - 1]];
      assert q[l - n..] == q[..l - 1][l - n..] + [q[l - 1]];
    }
  }

  /** Two chains from orbiters of the same centre to the same name start at the same orbiter. */
  lemma {:induction false} SiblingsMeet(m: OrbitMap, rank: map<string, nat>, x: string, i: nat, j: nat, p: seq<string>, q: seq<string>)
    requires Ranked(m, rank) && Tree(m) && x in m && i < |m[x]| && j < |m[x]|
    requires Chain(m, p) && Chain(m, q) && p != [] && q != []
    requires p[0] == m[x][i] && q[0] == m[x][j] && p[|p| - 1] == q[|q| - 1]
    ensures i == j
  {
    if |p| <= |q| {
      SiblingsMeetOrdered(m, rank, x, i, j, p, q);
    } else {
      SiblingsMeetOrdered(m, rank, x, j, i, q, p);
    }
  }

  /** The case of `SiblingsMeet` where the first chain is the shorter. */
  lemma {:induction false} SiblingsMeetOrdered(m: OrbitMap, rank: map<string, nat>, x: string, i: nat, j: nat, p: seq<string>, q: seq<string>)
    requires Ranked(m, rank) && Tree(m) && x in m && i < |m[x]| && j < |m[x]|
    requires Chain(m, p) && Chain(m, q) && 1 <= |p| <= |q|
    requires p[0] == m[x][i] && q[0] == m[x][j] && p[|p| - 1] == q[|q| - 1]
    ensures i == j
  {
    ChainsMeet(m, p, q);
    var d := |q| - |p|;
    assert q[d] == p[0];
    if d == 0 {
      assert Apart(m, x, x);
    } else {
      OneCentre(m, q[d - 1], x, q[d]);
      ChainSlice(m, q, 0, d);
      if d >= 2 {
        ChainRank(m, rank, q[..d]);
      }
      // Unreachable: q[d - 1] is then x, and the chain q[..d] from its orbiter q[0] back to x breaks the ranking.
      assert false;
    }
  }

  /** When the searches below two orbiters of the same centre both reach the target, they are the same orbiter. */
  lemma {:induction false} RouteUnique(m: OrbitMap, rank: map<string, nat>, x: string, target: string)
    requires Ranked(m, rank) && Tree(m) && x in m
    requires forall i | 0 <= i < |m[x]| :: Chain(m, Route(m, rank, m[x][i], target))
    ensures forall i, j | 0 <= i < |m[x]| && 0 <= j < |m[x]| && Route(m, rank, m[x][i], target) != [] && Route(m, rank, m[x][j], target) != [] :: i == j
  {
    forall i, j | 0 <= i < |m[x]| && 0 <= j < |m[x]| && Route(m, rank, m[x][i], target) != [] && Route(m, rank, m[x][j], target) != []
      ensures i == j
    {
      SiblingsMeet(m, rank, x, i, j, Route(m, rank, m[x][i], target), Route(m, rank, m[x][j], target));
    }
  }

  /** What the searches from the first `n` orbiters of `x` leave: nothing, or what one of them leaves. */
  lemma {:induction false} RouteListOne(m: OrbitMap, rank: map<string, nat>, x: string, target: string, n: nat)
    requires Ranked(m, rank) && x in m && n <= |m[x]|
    requires forall i, j | 0 <= i < |m[x]| && 0 <= j < |m[x]| && Route(m, rank, m[x][i], target) != [] && Route(m, rank, m[x][j], target) != [] :: i == j
    ensures var r := RouteList(m, rank, x, n, target);
      (r == [] && forall i | 0 <= i < n :: Route(m, rank, m[x][i], target) == [])
      || exists i | 0 <= i < n :: r == Route(m, rank, m[x][i], target) != []
    decreases n
  {
    if n > 0 {
      var prev, last := RouteList(m, rank, x, n - 1, target), Route(m, rank, m[x][n - 1], target);
      assert RouteList(m, rank, x, n, target) == prev + last;
      RouteListOne(m, rank, x, target, n - 1);
      if last == [] {
        assert prev + last == prev;
      } else if prev == [] {
        assert prev + last == last;
      } else {
        // Unreachable: two orbiters whose searches both reach the target would be the same orbiter (the requires).
        assert false;
      }
    }
  }

  /** A name followed by a chain that starts with one of its orbiters is a chain. */
  lemma ChainCons(m: OrbitMap, x: string, p: seq<string>)
    requires Chain(m, p) && p != [] && x in m && p[0] in m[x]
    ensures Chain(m, [x] + p)
  {
    forall k | 0 <= k < |p| ensures OrbitsAround(m, ([x] + p)[k], ([x] + p)[k + 1]) {
      if k > 0 {
        assert OrbitsAround(m, p[k - 1], p[k]);
      }
    }
  }

  /** In a tree what the searches from the orbiters of `x` leave is nothing, or the route from one of them. */
  lemma {:induction false} RouteBelow(m: OrbitMap, rank: map<string, nat>, x: string, target: string)
    requires Ranked(m, rank) && Tree(m) && x in m
    requires forall i | 0 <= i < |m[x]| :: Chain(m, Route(m, rank, m[x][i], target))
    ensures var below := RouteList(m, rank, x, |m[x]|, target);
      (below == [] && forall i | 0 <= i < |m[x]| :: Route(m, rank, m[x][i], target) == [])
      || exists i | 0 <= i < |m[x]| :: below == Route(m, rank, m[x][i], target) != []
  {
    RouteUnique(m, rank, x, target);
    RouteListOne(m, rank, x, target, |m[x]|);
  }

  /** In a tree the route the search leaves is a chain: each name orbits the one before it. */
  lemma {:induction false} RouteChain(m: OrbitMap, rank: map<string, nat>, x: string, target: string)
    requires Ranked(m, rank) && Tree(m)
    ensures Chain(m, Route(m, rank, x, target))
    decreases if x in rank then rank[x] else 0
  {
    if x != target && x in m {
      forall i | 0 <= i < |m[x]| ensures Chain(m, Route(m, rank, m[x][i], target)) {
        RouteChain(m, rank, m[x][i], target);
      }
      RouteBelow(m, rank, x, target);
      var below := RouteList(m, rank, x, |m[x]|, target);
      if below != [] {
        var i :| 0 <= i < |m[x]| && below == Route(m, rank, m[x][i], target);
        ChainCons(m, x, below);
      }
    }
  }

  /** In a tree, once the search from one orbiter of `x` reaches the target, what the searches from all of them leave is its route. */
  lemma RouteThrough(m: OrbitMap, rank: map<string, nat>, x: string, i: nat, target: string)
    requires Ranked(m, rank) && Tree(m) && x in m && i < |m[x]| && Route(m, rank, m[x][i], target) != []
    ensures RouteList(m, rank, x, |m[x]|, target) == Route(m, rank, m[x][i], target)
  {
    forall j | 0 <= j < |m[x]| ensures Chain(m, Route(m, rank, m[x][j], target)) {
      RouteChain(m, rank, m[x][j], target);
    }
    RouteBelow(m, rank, x, target);
    RouteUnique(m, rank, x, target);
  }

  /** In a tree the route from `x` to another name passes through the one orbiter of `x` whose search reaches it. */
  lemma RouteStep(m: OrbitMap, rank: map<string, nat>, x: string, i: nat, target: string)
    requires Ranked(m, rank) && Tree(m) && x in m && i < |m[x]| && x != target && Route(m, rank, m[x][i], target) != []
    ensures Route(m, rank, x, target) == [x] + Route(m, rank, m[x][i], target)
  {
    RouteThrough(m, rank, x, i, target);
  }

  /** In a tree every chain down to the target is the route the search leaves: the route is the only one. */
  lemma {:induction false} RouteComplete(m: OrbitMap, rank: map<string, nat>, p: seq<string>, target: string)
    requires Ranked(m, rank) && Tree(m) && Chain(m, p) && p != [] && p[|p| - 1] == target
    ensures Route(m, rank, p[0], target) == p
    decreases |p|
  {
    if |p| > 1 {
      var x, rest := p[0], p[1..];
      assert OrbitsAround(m, p[0], p[1]);
      assert x != target by {
        ChainRank(m, rank, p);
      }
      assert Route(m, rank, rest[0], target) == rest by {
        ChainSlice(m, p, 1, |p|);
        RouteComplete(m, rank, rest, target);
      }
      var i :| 0 <= i < |m[x]| && m[x][i] == rest[0];
      RouteStep(m, rank, x, i, target);
      assert p == [x] + rest;
    }
  }

  /**
   * `rec_find_ancestors` from `start` with an empty vector, in a tree: it
   * leaves either nothing, when no chain leads from `start` down to the
   * target, or the one chain from `start` to the target, both ends included.
   */
  lemma AncestorsArePath(m: OrbitMap, rank: map<string, nat>, start: string, target: string)
    requires Ranked(m, rank) && Tree(m)
    ensures Route(m, rank, start, target) == [] ==> forall p | Chain(m, p) && p != [] && p[0] == start :: p[|p| - 1] != target
    ensures Route(m, rank, start, target) != [] ==> Chain(m, Route(m, rank, start, target))
    ensures forall p | Chain(m, p) && p != [] && p[0] == start && p[|p| - 1] == target :: Route(m, rank, start, target) == p
  {
    RouteChain(m, rank, start, target);
    forall p | Chain(m, p) && p != [] && p[0] == start && p[|p| - 1] == target ensures Route(m, rank, start, target) == p {
      RouteComplete(m, rank, p, target);
    }
  }

  /** The length of the longest common prefix of two sequences. */
  function CommonPrefix(a: seq<string>, b: seq<string>): (n: nat)
    ensures n <= |a| && n <= |b| && a[..n] == b[..n]
    ensures n < |a| && n < |b| ==> a[n] != b[n]
  {
    if a == [] || b == [] || a[0] != b[0] then 0
    else
      var n := CommonPrefix(a[1..], b[1..]);
      assert a[..n + 1] == [a[0]] + a[1..][..n] && b[..n + 1] == [b[0]] + b[1..][..n];
      n + 1
  }

  /** A shared prefix that cannot be extended is the longest one. */
  lemma CommonPrefixIs(a: seq<string>, b: seq<string>, i: nat)
    requires i <= |a| && i <= |b| && a[..i] == b[..i]
    requires i == |a| || i == |b| || a[i] != b[i]
    ensures CommonPrefix(a, b) == i
  {
    var n := CommonPrefix(a, b);
    assert forall k | 0 <= k < i :: a[k] == a[..i][k] == b[..i][k] == b[k];
    assert forall k | 0 <= k < n :: a[k] == a[..n][k] == b[..n][k] == b[k];
  }

  /**
   * What `find_common_ancestor` computes: the last name of the two routes'
   * common prefix, or "" when they differ from the start; `None` when the
   * second route is a proper prefix of the first, where indexing it panics.
   */
  function CommonAncestor(vec1: seq<string>, vec2: seq<string>): Option<string>
  {
    var n := CommonPrefix(vec1, vec2);
    if n == |vec2| < |vec1| then None
    else Some(if n == 0 then "" else vec1[n - 1])
  }

  /** Finding the common ancestor panics exactly when the second route is a proper prefix of the first. */
  lemma CommonAncestorPanics(vec1: seq<string>, vec2: seq<string>)
    ensures CommonAncestor(vec1, vec2).None? <==> |vec2| < |vec1| && vec1[..|vec2|] == vec2
  {
    if |vec2| < |vec1| && vec1[..|vec2|] == vec2 {
      CommonPrefixIs(vec1, vec2, |vec2|);
    }
  }

  /** `find_common_ancestor`: walk the first route while the second agrees, remembering the last name they share. */
  method FindCommonAncestor(vec1: seq<string>, vec2: seq<string>) returns (r: Option<string>)
    ensures r == CommonAncestor(vec1, vec2)
  {
    var lastMatchingAncestor := "";
    var i := 0;
    while i < |vec1|
      invariant i <= |vec1| && i <= |vec2| && vec1[..i] == vec2[..i]
      invariant lastMatchingAncestor == if i == 0 then "" else vec1[i - 1]
    {
      if i >= |vec2| {
        CommonPrefixIs(vec1, vec2, i);
        return None;
      }
      if vec1[i] != vec2[i] {
        break;
      }
      lastMatchingAncestor := vec1[i];
      assert vec1[..i + 1] == vec1[..i] + [vec1[i]] && vec2[..i + 1] == vec2[..i] + [vec2[i]];
      i := i + 1;
    }
    CommonPrefixIs(vec1, vec2, i);
    return Some(lastMatchingAncestor);
  }

  /** What `find_closest_ancestor_a_and_b` computes: the last name the routes from `start` to `a` and to `b` share. */
  function ClosestAncestor(m: OrbitMap, rank: map<string, nat>, start: string, a: string, b: string): Option<string>
    requires Ranked(m, rank)
  {
    CommonAncestor(Route(m, rank, start, a), Route(m, rank, start, b))
  }

  /** `find_closest_ancestor_a_and_b`. */
  method FindClosestAncestor(orbitMap: OrbitMap, ghost rank: map<string, nat>, start: string, a: string, b: string) returns (r: Option<string>)
    requires Ranked(orbitMap, rank)
    ensures r == ClosestAncestor(orbitMap, rank, start, a, b)
  {
    var resultVec1 := RecFindAncestors(start, orbitMap, rank, a, false, []);
    assert resultVec1 == Route(orbitMap, rank, start, a);
    var resultVec2 := RecFindAncestors(start, orbitMap, rank, b, false, []);
    assert resultVec2 == Route(orbitMap, rank, start, b);
    r := FindCommonAncestor(resultVec1, resultVec2);
  }

  /** What `find_number_of_jumps` computes: two less than the length of the route from the closest ancestor to each of `a` and `b`. */
  function Jumps(m: OrbitMap, rank: map<string, nat>, start: string, a: string, b: string): Option<int>
    requires Ranked(m, rank)
  {
    JumpsBelow(m, rank, ClosestAncestor(m, rank, start, a, b), a, b)
  }

  /** The jumps counted from a given closest ancestor, if there is one. */
  function JumpsBelow(m: OrbitMap, rank: map<string, nat>, ancestor: Option<string>, a: string, b: string): Option<int>
    requires Ranked(m, rank)
  {
    match ancestor
    case None => None
    case Some(c) => Some((|Route(m, rank, c, a)| - 2) + (|Route(m, rank, c, b)| - 2))
  }

  /** `find_number_of_jumps`; `None` where finding the closest ancestor panics. */
  method FindNumberOfJumps(orbitMap: OrbitMap, ghost rank: map<string, nat>, start: string, a: string, b: string) returns (r: Option<int>)
    requires Ranked(orbitMap, rank)
    ensures r == Jumps(orbitMap, rank, start, a, b)
  {
    var ancestor := FindClosestAncestor(orbitMap, rank, start, a, b);
    r := CountJumps(orbitMap, rank, ancestor, a, b);
  }

  /** The second half of `find_number_of_jumps`, once the closest ancestor is known. */
  method CountJumps(orbitMap: OrbitMap, ghost rank: map<string, nat>, ancestor: Option<string>, a: string, b: string) returns (r: Option<int>)
    requires Ranked(orbitMap, rank)
    ensures r == JumpsBelow(orbitMap, rank, ancestor, a, b)
  {
    if ancestor.None? {
      return None;
    }
    var aLenVec := RecFindAncestors(ancestor.value, orbitMap, rank, a, false, []);
    var bLenVec := RecFindAncestors(ancestor.value, orbitMap, rank, b, false, []);
    return Some((|aLenVec| - 2) + (|bLenVec| - 2));
  }

  /** Two routes from the same name share at least that name, and their common ancestor is the last name they share. */
  lemma CommonAncestorShared(pa: seq<string>, pb: seq<string>)
    requires pa != [] && pb != [] && pa[0] == pb[0] && CommonAncestor(pa, pb).Some?
    ensures var n := CommonPrefix(pa, pb);
      1 <= n && CommonAncestor(pa, pb).value == pa[n - 1] == pb[n - 1]
  {
    var n := CommonPrefix(pa, pb);
    assert pa[n - 1] == pa[..n][n - 1] == pb[..n][n - 1] == pb[n - 1];
  }

  /** In a tree the route from any name on a route is that route's tail from there. */
  lemma RouteSuffix(m: OrbitMap, rank: map<string, nat>, x: string, target: string, k: nat)
    requires Ranked(m, rank) && Tree(m) && k < |Route(m, rank, x, target)|
    ensures Route(m, rank, Route(m, rank, x, target)[k], target) == Route(m, rank, x, target)[k..]
  {
    var p := Route(m, rank, x, target);
    RouteChain(m, rank, x, target);
    ChainSlice(m, p, k, |p|);
    RouteComplete(m, rank, p[k..], target);
  }

  /**
   * In a tree where both `a` and `b` lie below `start` and the search does
   * not panic, the closest ancestor is the last name the two routes share:
   * below it they part, the routes from it are the tails of the routes from
   * `start`, and the jumps are the transfers from what `a` orbits to what
   * `b` orbits.
   */
  lemma JumpsBetween(m: OrbitMap, rank: map<string, nat>, start: string, a: string, b: string)
    requires Ranked(m, rank) && Tree(m)
    requires Route(m, rank, start, a) != [] && Route(m, rank, start, b) != []
    requires ClosestAncestor(m, rank, start, a, b).Some?
    ensures var pa, pb := Route(m, rank, start, a), Route(m, rank, start, b);
      var n := CommonPrefix(pa, pb);
      1 <= n && ClosestAncestor(m, rank, start, a, b) == Some(pa[n - 1]) && pa[n - 1] == pb[n - 1]
    ensures var pa, pb := Route(m, rank, start, a), Route(m, rank, start, b);
      var n := CommonPrefix(pa, pb);
      n < |pa| && n < |pb| ==> pa[n] != pb[n]
    ensures var pa, pb := Route(m, rank, start, a), Route(m, rank, start, b);
      var n := CommonPrefix(pa, pb);
      1 <= n && Route(m, rank, pa[n - 1], a) == pa[n - 1..] && Route(m, rank, pb[n - 1], b) == pb[n - 1..]
    ensures var pa, pb := Route(m, rank, start, a), Route(m, rank, start, b);
      var j := Jumps(m, rank, start, a, b);
      j.Some? && j.value == |pa| + |pb| - 2 * CommonPrefix(pa, pb) - 2
  {
    var pa, pb := Route(m, rank, start, a), Route(m, rank, start, b);
    var n := CommonPrefix(pa, pb);
    assert 1 <= n && ClosestAncestor(m, rank, start, a, b).value == pa[n - 1] == pb[n - 1] by {
      CommonAncestorShared(pa, pb);
    }
    assert Route(m, rank, pa[n - 1], a) == pa[n - 1..] by {
      RouteSuffix(m, rank, start, a, n - 1);
    }
    assert Route(m, rank, pb[n - 1], b) == pb[n - 1..] by {
      RouteSuffix(m, rank, start, b, n - 1);
    }
    assert Jumps(m, rank, start, a, b).Some? && Jumps(m, rank, start, a, b).value == |pa| + |pb| - 2 * n - 2 by {
      JumpsFromTails(m, rank, start, a, b, n);
    }
  }

  /** Counted from the last name two routes share, when the routes from it are their tails, the jumps are what those tails leave out. */
  lemma JumpsFromTails(m: OrbitMap, rank: map<string, nat>, start: string, a: string, b: string, n: nat)
    requires Ranked(m, rank)
    requires var pa, pb := Route(m, rank, start, a), Route(m, rank, start, b);
      1 <= n <= |pa| && n <= |pb| && ClosestAncestor(m, rank, start, a, b) == Some(pa[n - 1])
      && Route(m, rank, pa[n - 1], a) == pa[n - 1..] && Route(m, rank, pa[n - 1], b) == pb[n - 1..]
    ensures var j := Jumps(m, rank, start, a, b);
      j.Some? && j.value == |Route(m, rank, start, a)| + |Route(m, rank, start, b)| - 2 * n - 2
  {
  }
}
