/**
 * Day 6, orbit count: `count_orbits` walks the orbit map depth first with an
 * explicit stack, pushing a marker whenever it goes one level deeper and
 * popping it on the way back, records each name's depth when the name is
 * popped, and adds the recorded depths up. The walk is proved to compute,
 * for a map that is a tree, the sum over every name of its depth below the
 * universal centre of mass.
 */
module OrbitCount {
  import opened Outcomes
  import opened Orbits

  /** The marker `count_orbits` pushes to note that one level deeper begins. */
  const Separator: string := "---===---"

  /** No centre and no orbiter is called like the level marker. */
  predicate NoSeparator(m: OrbitMap)
  {
    forall k | k in m :: k != Separator && forall i | 0 <= i < |m[k]| :: m[k][i] != Separator
  }

  /** `rank` is a witness that the map has no cycle: every orbiter ranks below its centre. */
  predicate Ranked(m: OrbitMap, rank: map<string, nat>)
  {
    forall k | k in m :: k in rank && forall i | 0 <= i < |m[k]| :: m[k][i] in rank && rank[m[k][i]] < rank[k]
  }

  /** No name occurs twice in the list. */
  predicate Distinct(xs: seq<string>)
  {
    forall i, j | 0 <= i < j < |xs| :: xs[i] != xs[j]
  }

  /** A name in the lists of both `k1` and `k2` sits in one place: the two are the same centre, at the same index. */
  predicate Apart(m: OrbitMap, k1: string, k2: string)
    requires k1 in m && k2 in m
  {
    forall i, j | 0 <= i < |m[k1]| && 0 <= j < |m[k2]| && m[k1][i] == m[k2][j] :: k1 == k2 && i == j
  }

  /** Every name orbits at most one centre, and appears only once in its list. */
  predicate Tree(m: OrbitMap)
  {
    forall k1, k2 | k1 in m && k2 in m :: Apart(m, k1, k2)
  }

  /**
   * The orbits counted in the subtree of `x` when `x` sits `d` levels below
   * the root: `x` orbits `d` objects directly or indirectly, and each object
   * below it orbits one more than its centre.
   */
  function Total(m: OrbitMap, rank: map<string, nat>, x: string, d: nat): nat
    requires Ranked(m, rank)
    decreases if x in rank then rank[x] else 0, 1
  {
    if x in m then d + ListTotal(m, rank, m[x], d + 1, rank[x]) else d
  }

  /** The orbits counted in the subtrees of a list of siblings at depth `d`. */
  function ListTotal(m: OrbitMap, rank: map<string, nat>, xs: seq<string>, d: nat, bound: nat): nat
    requires Ranked(m, rank)
    requires forall i | 0 <= i < |xs| :: xs[i] in rank && rank[xs[i]] < bound
    decreases bound, 0, |xs|
  {
    if xs == [] then 0
    else ListTotal(m, rank, xs[..|xs| - 1], d, bound) + Total(m, rank, xs[|xs| - 1], d)
  }

  /** How many level markers a stack holds. */
  function Seps(s: seq<string>): (n: nat)
    ensures n <= |s|
  {
    if s == [] then 0 else Seps(s[..|s| - 1]) + if s[|s| - 1] == Separator then 1 else 0
  }

  /** The orbits still to be counted below the names waiting on a stack, each at the depth of the markers beneath it. */
  function Pending(m: OrbitMap, rank: map<string, nat>, s: seq<string>): nat
    requires Ranked(m, rank)
  {
    if s == [] then 0
    else
      var front := s[..|s| - 1];
      Pending(m, rank, front) + if s[|s| - 1] == Separator then 0 else Total(m, rank, s[|s| - 1], Seps(front))
  }

  /** How many names the subtree of `x` holds, `x` included. */
  function Size(m: OrbitMap, rank: map<string, nat>, x: string): nat
    requires Ranked(m, rank)
    decreases if x in rank then rank[x] else 0, 1
  {
    if x in m then 1 + ListSize(m, rank, m[x], rank[x]) else 1
  }

  /** How many names the subtrees of a list of siblings hold. */
  function ListSize(m: OrbitMap, rank: map<string, nat>, xs: seq<string>, bound: nat): nat
    requires Ranked(m, rank)
    requires forall i | 0 <= i < |xs| :: xs[i] in rank && rank[xs[i]] < bound
    decreases bound, 0, |xs|
  {
    if xs == [] then 0
    else ListSize(m, rank, xs[..|xs| - 1], bound) + Size(m, rank, xs[|xs| - 1])
  }

  /** The work left on a stack: three units per name below each waiting name, one per marker. */
  function Load(m: OrbitMap, rank: map<string, nat>, s: seq<string>): nat
    requires Ranked(m, rank)
  {
    if s == [] then 0
    else
      var front := s[..|s| - 1];
      Load(m, rank, front) + if s[|s| - 1] == Separator then 1 else 3 * Size(m, rank, s[|s| - 1])
  }

  /** Pushing a marker and then a list of names: one level deeper, and the names' subtrees become pending there. */
  lemma {:induction false} PendingPush(m: OrbitMap, rank: map<string, nat>, s: seq<string>, kids: seq<string>, bound: nat)
    requires Ranked(m, rank)
    requires forall i | 0 <= i < |kids| :: kids[i] != Separator && kids[i] in rank && rank[kids[i]] < bound
    ensures Seps(s + [Separator] + kids) == Seps(s) + 1
    ensures Pending(m, rank, s + [Separator] + kids) == Pending(m, rank, s) + ListTotal(m, rank, kids, Seps(s) + 1, bound)
    ensures Load(m, rank, s + [Separator] + kids) == Load(m, rank, s) + 1 + 3 * ListSize(m, rank, kids, bound)
    decreases |kids|
  {
    var q := s + [Separator] + kids;
    if kids == [] {
      assert q[..|q| - 1] == s;
    } else {
      var front := kids[..|kids| - 1];
      PendingPush(m, rank, s, front, bound);
      assert q[..|q| - 1] == s + [Separator] + front;
    }
  }

  /** The sum of the depths recorded for `keys`, in whatever order the keys are taken. */
  ghost function SumOver(dm: map<string, nat>, keys: set<string>): nat
    requires keys <= dm.Keys
    decreases |keys|
  {
    if keys == {} then 0
    else
      assert (forall z :: z !in keys) ==> keys == {};
      var k :| k in keys;
      dm[k] + SumOver(dm, keys - {k})
  }

  /** Any key can be taken first: the fold's order does not matter. */
  lemma {:induction false} SumOverRemove(dm: map<string, nat>, keys: set<string>, k: string)
    requires keys <= dm.Keys && k in keys
    ensures SumOver(dm, keys) == dm[k] + SumOver(dm, keys - {k})
    decreases |keys|
  {
    var j :| j in keys && SumOver(dm, keys) == dm[j] + SumOver(dm, keys - {j});
    if j != k {
      SumOverRemove(dm, keys - {j}, k);
      SumOverRemove(dm, keys - {k}, j);
      assert keys - {j} - {k} == keys - {k} - {j};
    }
  }

  /** The sum only reads the entries of `keys`. */
  lemma {:induction false} SumOverFrame(dm: map<string, nat>, dm2: map<string, nat>, keys: set<string>)
    requires keys <= dm.Keys && keys <= dm2.Keys
    requires forall k | k in keys :: dm[k] == dm2[k]
    ensures SumOver(dm, keys) == SumOver(dm2, keys)
    decreases |keys|
  {
    if keys != {} {
      var k :| k in keys && SumOver(dm, keys) == dm[k] + SumOver(dm, keys - {k});
      SumOverRemove(dm2, keys, k);
      SumOverFrame(dm, dm2, keys - {k});
    }
  }

  /** Recording a new name adds its depth to the sum. */
  lemma {:induction false} SumOverRecord(dm: map<string, nat>, x: string, v: nat)
    requires x !in dm
    ensures SumOver(dm[x := v], dm[x := v].Keys) == SumOver(dm, dm.Keys) + v
  {
    var dm2 := dm[x := v];
    assert dm2.Keys - {x} == dm.Keys;
    SumOverRemove(dm2, dm2.Keys, x);
    SumOverFrame(dm, dm2, dm.Keys);
  }

  /** The names of `kids` that the push loop puts on the stack: each one not yet seen, once. */
  function NewOnes(kids: seq<string>, seen: set<string>): seq<string>
    decreases |kids|
  {
    if kids == [] then []
    else if kids[0] in seen then NewOnes(kids[1..], seen)
    else [kids[0]] + NewOnes(kids[1..], seen + {kids[0]})
  }

  /** Distinct names none of which was seen are all pushed, in order. */
  lemma {:induction false} NewOnesAll(kids: seq<string>, seen: set<string>)
    requires forall i | 0 <= i < |kids| :: kids[i] !in seen
    requires forall i, j | 0 <= i < j < |kids| :: kids[i] != kids[j]
    ensures NewOnes(kids, seen) == kids
    decreases |kids|
  {
    if kids != [] {
      NewOnesAll(kids[1..], seen + {kids[0]});
    }
  }

  /** Names that were all seen push nothing. */
  lemma {:induction false} NewOnesNone(kids: seq<string>, seen: set<string>)
    requires forall i | 0 <= i < |kids| :: kids[i] in seen
    ensures NewOnes(kids, seen) == []
    decreases |kids|
  {
    if kids != [] {
      NewOnesNone(kids[1..], seen);
    }
  }

  /** The push loop of `count_orbits`: each orbiter marked seen, and pushed if it was not seen before. */
  method PushUnseen(stack: seq<string>, seen: set<string>, kids: seq<string>) returns (stack': seq<string>, seen': set<string>)
    ensures stack' == stack + NewOnes(kids, seen)
    ensures seen' == seen + Elems(kids)
  {
    stack', seen' := stack, seen;
    for i := 0 to |kids|
      invariant stack' + NewOnes(kids[i..], seen') == stack + NewOnes(kids, seen)
      invariant seen' == seen + Elems(kids[..i])
    {
      assert kids[i..][1..] == kids[i + 1..];
      assert NewOnes(kids[i..], seen') == (if kids[i] in seen' then [] else [kids[i]]) + NewOnes(kids[i + 1..], seen' + {kids[i]}) by {
        if kids[i] in seen' {
          assert seen' + {kids[i]} == seen';
        }
      }
      assert Elems(kids[..i + 1]) == Elems(kids[..i]) + {kids[i]} by {
        assert forall j | 0 <= j < i :: kids[..i + 1][j] == kids[..i][j];
      }
      if kids[i] !in seen' {
        stack' := stack' + [kids[i]];
      }
      seen' := seen' + {kids[i]};
    }
    assert kids[..|kids|] == kids;
  }

  /** Where the root is while the walk goes on: alone before the first step, at the bottom while its subtree is walked, gone (but for one marker) once it is recorded. */
  ghost predicate Shape(com: string, stack: seq<string>, seen: set<string>, dm: map<string, nat>, started: bool, comDone: bool)
  {
    && (!started ==> stack == [com] && seen == {} && dm == map[] && !comDone)
    && (started && !comDone ==> |stack| >= 1 && stack[0] == com)
    && (comDone ==> started && (stack == [] || stack == [Separator]))
  }

  /** How many entries at the bottom of the stack are the root, already expanded. */
  function Base(started: bool, comDone: bool): nat
  {
    if started && !comDone then 1 else 0
  }

  /** What has been seen and recorded: the root, and the orbiters of the root and of every recorded name. */
  ghost predicate Marked(m: OrbitMap, com: string, seen: set<string>, dm: map<string, nat>, started: bool, comDone: bool)
  {
    started ==> com in seen && seen == {com} + OrbitersIn(m, dm.Keys + {com}) && dm.Keys <= seen && (comDone <==> com in dm)
  }

  /** The names waiting in a stack segment: each seen, not yet recorded, not the root, and not waiting twice. */
  ghost predicate Fresh(com: string, s: seq<string>, seen: set<string>, dm: map<string, nat>)
    decreases |s|
  {
    if s == [] then true
    else
      var front, last := s[..|s| - 1], s[|s| - 1];
      Fresh(com, front, seen, dm) && (last == Separator || (last in seen && last !in dm && last != com && last !in front))
  }

  /** Every name waiting in a segment is seen, unrecorded and not the root. */
  lemma {:induction false} FreshInSeen(com: string, s: seq<string>, seen: set<string>, dm: map<string, nat>, y: string)
    requires Fresh(com, s, seen, dm) && y in s && y != Separator
    ensures y in seen && y !in dm && y != com
    decreases |s|
  {
    if s[|s| - 1] != y {
      assert y in s[..|s| - 1] by {
        assert s == s[..|s| - 1] + [s[|s| - 1]];
      }
      FreshInSeen(com, s[..|s| - 1], seen, dm, y);
    }
  }

  /** Seeing more names and recording one that does not wait keep a segment waiting. */
  lemma {:induction false} FreshRecord(com: string, s: seq<string>, seen: set<string>, seen': set<string>, dm: map<string, nat>, x: string, v: nat)
    requires Fresh(com, s, seen, dm) && seen <= seen' && x !in s
    ensures Fresh(com, s, seen', dm[x := v])
    decreases |s|
  {
    if s != [] {
      assert x !in s[..|s| - 1] by {
        assert s == s[..|s| - 1] + [s[|s| - 1]];
      }
      FreshRecord(com, s[..|s| - 1], seen, seen', dm, x, v);
    }
  }

  /** Seeing more names keeps a segment waiting. */
  lemma {:induction false} FreshSee(com: string, s: seq<string>, seen: set<string>, seen': set<string>, dm: map<string, nat>)
    requires Fresh(com, s, seen, dm) && seen <= seen'
    ensures Fresh(com, s, seen', dm)
    decreases |s|
  {
    if s != [] {
      FreshSee(com, s[..|s| - 1], seen, seen', dm);
    }
  }

  /** A marker and then fresh, distinct names pushed on a waiting segment leave it waiting. */
  lemma {:induction false} FreshPush(com: string, s: seq<string>, kids: seq<string>, seen: set<string>, dm: map<string, nat>)
    requires Fresh(com, s, seen, dm)
    requires forall i | 0 <= i < |kids| :: kids[i] != Separator && kids[i] !in seen && kids[i] !in dm && kids[i] != com
    requires forall i, j | 0 <= i < j < |kids| :: kids[i] != kids[j]
    ensures Fresh(com, s + [Separator] + kids, seen + Elems(kids), dm)
    decreases |kids|
  {
    var q := s + [Separator] + kids;
    if kids == [] {
      assert q[..|q| - 1] == s;
      FreshSee(com, s, seen, seen + Elems(kids), dm);
    } else {
      var front, k := kids[..|kids| - 1], kids[|kids| - 1];
      FreshPush(com, s, front, seen, dm);
      assert Elems(kids) == Elems(front) + {k} by {
        assert forall i | 0 <= i < |front| :: front[i] == kids[i];
      }
      FreshSee(com, s + [Separator] + front, seen + Elems(front), seen + Elems(kids), dm);
      assert q[..|q| - 1] == s + [Separator] + front;
      assert k !in s by {
        if k in s {
          FreshInSeen(com, s, seen, dm, k);
        }
      }
      assert forall i | 0 <= i < |front| :: front[i] == kids[i] && kids[i] != k;
      assert k in Elems(kids) by {
        assert kids[|kids| - 1] == k;
      }
    }
  }

  /**
   * The invariant of the walk: `depth` counts the markers on the stack, and
   * the depths recorded so far plus the orbits pending below the waiting
   * names make up the root's total.
   */
  ghost predicate Walking(m: OrbitMap, rank: map<string, nat>, com: string, stack: seq<string>, seen: set<string>, depth: nat,
                          dm: map<string, nat>, started: bool, comDone: bool)
    requires Ranked(m, rank)
  {
    var base := Base(started, comDone);
    && com in m && Roots(m) == {com}
    && Shape(com, stack, seen, dm, started, comDone)
    && base <= |stack|
    && depth == Seps(stack[base..]) && depth <= |stack|
    && Marked(m, com, seen, dm, started, comDone)
    && (started ==> Fresh(com, stack[base..], seen, dm))
    && SumOver(dm, dm.Keys) + Pending(m, rank, stack[base..]) == Total(m, rank, com, 0)
  }

  /** One step on a name `top` at the top of the stack, as `count_orbits` takes it: popped and recorded if seen before, then its orbiters pushed one level deeper. */
  ghost predicate Visit(m: OrbitMap, stack: seq<string>, seen: set<string>, depth: nat, dm: map<string, nat>, top: string,
                        stack': seq<string>, seen': set<string>, depth': nat, dm': map<string, nat>)
  {
    && |stack| >= 1 && top == stack[|stack| - 1]
    && dm' == (if top in seen then dm[top := depth] else dm)
    && stack' == (if top in seen then stack[..|stack| - 1] else stack) + (if top in m then [Separator] + NewOnes(m[top], seen + {top}) else [])
    && seen' == seen + {top} + (if top in m then Elems(m[top]) else {})
    && depth' == depth + (if top in m then 1 else 0)
  }

  /** What is left of the walk: the load of the stack above the expanded root, and two units until the root is recorded. */
  ghost function Work(m: OrbitMap, rank: map<string, nat>, stack: seq<string>, started: bool, comDone: bool): nat
    requires Ranked(m, rank)
  {
    var base := Base(started, comDone);
    (if base <= |stack| then Load(m, rank, stack[base..]) else 0) + if comDone then 0 else 2
  }

  /** No orbiter is the root. */
  lemma {:induction false} RootOrbitsNothing(m: OrbitMap, com: string, k: string, i: int)
    requires Roots(m) == {com} && k in m && 0 <= i < |m[k]|
    ensures m[k][i] != com
  {
    assert m[k][i] in OrbitersIn(m, m.Keys);
  }

  /** The orbiters of `x` are none of the names seen once `dm` is recorded and the root is expanded. */
  ghost predicate Unseen(m: OrbitMap, com: string, dm: map<string, nat>, x: string)
    requires x in m
  {
    forall i | 0 <= i < |m[x]| :: m[x][i] !in {com} + OrbitersIn(m, dm.Keys + {com})
  }

  /** In a tree every orbiter list is distinct, and the orbiters of a name that is neither the root nor recorded are not yet seen. */
  lemma {:induction false} KidsUnseen(m: OrbitMap, com: string, dm: map<string, nat>, x: string)
    requires Tree(m) && Roots(m) == {com} && x in m
    ensures Distinct(m[x])
    ensures x != com && x !in dm ==> Unseen(m, com, dm, x)
  {
    assert Apart(m, x, x);
    if x != com && x !in dm {
      forall i | 0 <= i < |m[x]| ensures m[x][i] !in {com} + OrbitersIn(m, dm.Keys + {com}) {
        RootOrbitsNothing(m, com, x, i);
        forall k, j | k in dm.Keys + {com} && k in m && 0 <= j < |m[k]| ensures m[k][j] != m[x][i] {
          assert Apart(m, k, x);
        }
      }
    }
  }

  /** The orbiters of a seen, unrecorded name other than the root are neither seen nor recorded once it is recorded. */
  lemma {:induction false} KidsFresh(m: OrbitMap, com: string, seen: set<string>, dm: map<string, nat>, x: string, v: nat)
    requires NoSeparator(m) && x in m && x in seen && x !in dm
    requires Marked(m, com, seen, dm, true, false) && Unseen(m, com, dm, x)
    ensures forall i | 0 <= i < |m[x]| :: m[x][i] != Separator && m[x][i] !in seen && m[x][i] !in dm[x := v] && m[x][i] != com
  {
  }

  /** Expanding a waiting name with orbiters: its own depth is counted, its orbiters' subtrees wait one level deeper. */
  lemma {:induction false} PendingExpand(m: OrbitMap, rank: map<string, nat>, r: seq<string>, x: string)
    requires Ranked(m, rank) && NoSeparator(m) && x in m && x != Separator
    ensures Seps(r + [x]) == Seps(r)
    ensures Seps(r + [Separator] + m[x]) == Seps(r) + 1
    ensures Pending(m, rank, r + [x]) == Seps(r) + Pending(m, rank, r + [Separator] + m[x])
    ensures Load(m, rank, r + [x]) == Load(m, rank, r + [Separator] + m[x]) + 2
  {
    assert (r + [x])[..|r|] == r;
    PendingPush(m, rank, r, m[x], rank[x]);
  }

  /** Expanding a waiting name without orbiters: only its own depth is counted. */
  lemma {:induction false} PendingLeaf(m: OrbitMap, rank: map<string, nat>, r: seq<string>, x: string)
    requires Ranked(m, rank) && x !in m && x != Separator
    ensures Seps(r + [x]) == Seps(r)
    ensures Pending(m, rank, r + [x]) == Seps(r) + Pending(m, rank, r)
    ensures Load(m, rank, r + [x]) == Load(m, rank, r) + 3
  {
    assert (r + [x])[..|r|] == r;
  }

  /** The root's total is what its orbiters' subtrees hold one level down. */
  lemma {:induction false} AccountFirst(m: OrbitMap, rank: map<string, nat>, com: string)
    requires Ranked(m, rank) && NoSeparator(m) && com in m
    ensures Seps([Separator] + m[com]) == 1
    ensures Pending(m, rank, [Separator] + m[com]) == Total(m, rank, com, 0)
    ensures Load(m, rank, [Separator] + m[com]) + 2 == Load(m, rank, [com])
  {
    PendingExpand(m, rank, [], com);
    assert [] + [com] == [com] && [com][..0] == [];
    assert [] + [Separator] + m[com] == [Separator] + m[com];
  }

  /** Recording a waiting name with orbiters at its depth and pushing them keeps the account. */
  lemma {:induction false} AccountCentre(m: OrbitMap, rank: map<string, nat>, com: string, dm: map<string, nat>, r: seq<string>, x: string, d: nat)
    requires Ranked(m, rank) && NoSeparator(m) && x in m && x != Separator && x !in dm
    requires Seps(r + [x]) == d
    requires SumOver(dm, dm.Keys) + Pending(m, rank, r + [x]) == Total(m, rank, com, 0)
    ensures Seps(r + [Separator] + m[x]) == d + 1
    ensures SumOver(dm[x := d], dm[x := d].Keys) + Pending(m, rank, r + [Separator] + m[x]) == Total(m, rank, com, 0)
    ensures Load(m, rank, r + [Separator] + m[x]) + 2 == Load(m, rank, r + [x])
  {
    PendingExpand(m, rank, r, x);
    SumOverRecord(dm, x, d);
  }

  /** Recording a waiting name without orbiters at its depth keeps the account. */
  lemma {:induction false} AccountLeaf(m: OrbitMap, rank: map<string, nat>, com: string, dm: map<string, nat>, r: seq<string>, x: string, d: nat)
    requires Ranked(m, rank) && x !in m && x != Separator && x !in dm
    requires Seps(r + [x]) == d
    requires SumOver(dm, dm.Keys) + Pending(m, rank, r + [x]) == Total(m, rank, com, 0)
    ensures Seps(r) == d
    ensures SumOver(dm[x := d], dm[x := d].Keys) + Pending(m, rank, r) == Total(m, rank, com, 0)
    ensures Load(m, rank, r) + 3 == Load(m, rank, r + [x])
  {
    PendingLeaf(m, rank, r, x);
    SumOverRecord(dm, x, d);
  }

  /** After the first step: the root and its orbiters are seen, nothing is recorded. */
  lemma {:induction false} MarkedFirst(m: OrbitMap, com: string, seen': set<string>)
    requires com in m && Roots(m) == {com}
    requires seen' == {com} + Elems(m[com])
    ensures Marked(m, com, seen', map[], true, false)
  {
    OrbitersOfOne(m, com);
    var none: map<string, nat> := map[];
    assert none.Keys + {com} == {com};
  }

  /** Recording a waiting name and marking its orbiters seen. */
  lemma {:induction false} MarkedRecord(m: OrbitMap, com: string, seen: set<string>, dm: map<string, nat>, x: string, v: nat, seen': set<string>)
    requires Roots(m) == {com}
    requires Marked(m, com, seen, dm, true, false)
    requires x in seen && x !in dm && x != com
    requires seen' == seen + if x in m then Elems(m[x]) else {}
    ensures Marked(m, com, seen', dm[x := v], true, false)
  {
    OrbitersInAdd(m, dm.Keys + {com}, x);
    assert dm[x := v].Keys + {com} == dm.Keys + {com} + {x};
  }

  /** Recording the root: its orbiters were seen when it was first expanded. */
  lemma {:induction false} MarkedRoot(m: OrbitMap, com: string, seen: set<string>, dm: map<string, nat>, v: nat)
    requires com in m
    requires Marked(m, com, seen, dm, true, false)
    ensures Elems(m[com]) <= seen
    ensures Marked(m, com, seen, dm[com := v], true, true)
  {
    assert dm.Keys + {com} == dm.Keys + {com} + {com};
    OrbitersInAdd(m, dm.Keys + {com}, com);
    assert dm[com := v].Keys + {com} == dm.Keys + {com};
  }

  /** Dropping the bottom entry of a stack with more pushed on top. */
  lemma DropFirst(s: seq<string>, t: seq<string>)
    requires |s| >= 1
    ensures (s + t)[1..] == s[1..] + t
  {
  }

  /** Before the first step: the root alone on the stack, its whole total pending. */
  lemma {:induction false} WalkStart(m: OrbitMap, rank: map<string, nat>, com: string)
    requires Ranked(m, rank) && NoSeparator(m) && com in m && Roots(m) == {com}
    ensures Walking(m, rank, com, [com], {}, 0, map[], false, false)
  {
    assert [com][0..] == [com] && [com][..0] == [];
  }

  /** A marker on top is popped and the depth goes back one level. */
  lemma {:induction false} StepSeparator(m: OrbitMap, rank: map<string, nat>, com: string, stack: seq<string>, seen: set<string>, depth: nat,
                      dm: map<string, nat>, started: bool, comDone: bool)
    requires Ranked(m, rank) && NoSeparator(m)
    requires Walking(m, rank, com, stack, seen, depth, dm, started, comDone)
    requires stack != [] && stack[|stack| - 1] == Separator
    ensures depth >= 1
    ensures Walking(m, rank, com, stack[..|stack| - 1], seen, depth - 1, dm, started, comDone)
    ensures Work(m, rank, stack[..|stack| - 1], started, comDone) < Work(m, rank, stack, started, comDone)
  {
    var base := Base(started, comDone);
    var rest := stack[base..];
    assert |stack| > base;
    assert stack[..|stack| - 1][base..] == rest[..|rest| - 1];
  }

  /** The first step: the root is marked seen, stays on the stack, and its orbiters go on top one level deeper. */
  lemma {:induction false} VisitFirst(m: OrbitMap, rank: map<string, nat>, com: string, stack: seq<string>, seen: set<string>, depth: nat, dm: map<string, nat>,
                   top: string, stack': seq<string>, seen': set<string>, depth': nat, dm': map<string, nat>)
    requires Ranked(m, rank) && NoSeparator(m)
    requires Walking(m, rank, com, stack, seen, depth, dm, false, false)
    requires Distinct(m[com])
    requires Visit(m, stack, seen, depth, dm, top, stack', seen', depth', dm')
    ensures Walking(m, rank, com, stack', seen', depth', dm', true, false)
    ensures Work(m, rank, stack', true, false) < Work(m, rank, stack, false, false)
  {
    assert stack == [com] && top == com && seen == {} && dm == map[] && depth == 0;
    var kids := m[com];
    assert seen' == {com} + Elems(kids) && stack'[1..] == [Separator] + kids by {
      assert seen + {com} == {com};
      forall i | 0 <= i < |kids| ensures kids[i] != com {
        RootOrbitsNothing(m, com, com, i);
      }
      NewOnesAll(kids, {com});
      assert stack' == [com] + [Separator] + kids;
    }
    assert Fresh(com, [Separator] + kids, seen', dm') by {
      forall i | 0 <= i < |kids| ensures kids[i] != com {
        RootOrbitsNothing(m, com, com, i);
      }
      FreshPush(com, [], kids, {com}, dm');
      assert [] + [Separator] + kids == [Separator] + kids;
    }
    assert Seps([Separator] + kids) == 1 && Pending(m, rank, [Separator] + kids) == Total(m, rank, com, 0)
        && Load(m, rank, [Separator] + kids) + 2 == Load(m, rank, [com]) by {
      AccountFirst(m, rank, com);
    }
    assert Marked(m, com, seen', dm', true, false) by {
      MarkedFirst(m, com, seen');
    }
    assert SumOver(dm', dm'.Keys) == 0;
  }

  /** The root comes back to the top once its subtree is done: it is recorded at depth zero and nothing new is pushed. */
  lemma {:induction false} VisitCom(m: OrbitMap, rank: map<string, nat>, com: string, stack: seq<string>, seen: set<string>, depth: nat, dm: map<string, nat>,
                 stack': seq<string>, seen': set<string>, depth': nat, dm': map<string, nat>)
    requires Ranked(m, rank) && NoSeparator(m)
    requires Walking(m, rank, com, stack, seen, depth, dm, true, false)
    requires Visit(m, stack, seen, depth, dm, com, stack', seen', depth', dm')
    ensures Walking(m, rank, com, stack', seen', depth', dm', true, true)
    ensures Work(m, rank, stack', true, true) < Work(m, rank, stack, true, false)
  {
    assert |stack| == 1 && depth == 0;
    var kids := m[com];
    MarkedRoot(m, com, seen, dm, depth);
    assert forall i | 0 <= i < |kids| :: kids[i] in seen by {
      assert forall i | 0 <= i < |kids| :: kids[i] in Elems(kids);
    }
    assert seen + {com} == seen;
    NewOnesNone(kids, seen);
    assert stack' == [Separator];
    assert seen' == seen;
    SumOverRecord(dm, com, depth);
    assert [Separator][..0] == [];
  }

  /** A name with orbiters: popped and recorded at the current depth, and its orbiters pushed one level deeper. */
  lemma {:induction false} VisitCentre(m: OrbitMap, rank: map<string, nat>, com: string, stack: seq<string>, seen: set<string>, depth: nat, dm: map<string, nat>,
                    x: string, stack': seq<string>, seen': set<string>, depth': nat, dm': map<string, nat>)
    requires Ranked(m, rank) && NoSeparator(m)
    requires Walking(m, rank, com, stack, seen, depth, dm, true, false)
    requires x != Separator && x != com && x in m
    requires Distinct(m[x]) && (x !in dm ==> Unseen(m, com, dm, x))
    requires Visit(m, stack, seen, depth, dm, x, stack', seen', depth', dm')
    ensures Walking(m, rank, com, stack', seen', depth', dm', true, false)
    ensures Work(m, rank, stack', true, false) < Work(m, rank, stack, true, false)
  {
    var n := |stack|;
    assert n >= 2;
    var r := stack[1..n - 1];
    var kids := m[x];
    assert stack[1..] == r + [x];
    assert x in seen && x !in dm && x !in r;
    assert NewOnes(kids, seen + {x}) == kids by {
      assert seen + {x} == seen;
      NewOnesAll(kids, seen);
    }
    assert stack'[1..] == r + [Separator] + kids by {
      var pushed := [Separator] + kids;
      DropFirst(stack[..n - 1], pushed);
      assert stack[..n - 1][1..] == r;
    }
    assert Fresh(com, r + [Separator] + kids, seen', dm') by {
      KidsFresh(m, com, seen, dm, x, depth);
      assert seen' == seen + Elems(kids);
      FreshRecord(com, r, seen, seen, dm, x, depth);
      FreshPush(com, r, kids, seen, dm');
    }
    assert Seps(r + [Separator] + kids) == depth + 1
        && SumOver(dm', dm'.Keys) + Pending(m, rank, r + [Separator] + kids) == Total(m, rank, com, 0)
        && Load(m, rank, r + [Separator] + kids) + 2 == Load(m, rank, r + [x]) by {
      AccountCentre(m, rank, com, dm, r, x, depth);
    }
    assert Marked(m, com, seen', dm', true, false) by {
      MarkedRecord(m, com, seen, dm, x, depth, seen');
    }
  }

  /** A name without orbiters: popped and recorded at the current depth. */
  lemma {:induction false} VisitLeaf(m: OrbitMap, rank: map<string, nat>, com: string, stack: seq<string>, seen: set<string>, depth: nat, dm: map<string, nat>,
                  x: string, stack': seq<string>, seen': set<string>, depth': nat, dm': map<string, nat>)
    requires Ranked(m, rank) && NoSeparator(m)
    requires Walking(m, rank, com, stack, seen, depth, dm, true, false)
    requires x != Separator && x != com && x !in m
    requires Visit(m, stack, seen, depth, dm, x, stack', seen', depth', dm')
    ensures Walking(m, rank, com, stack', seen', depth', dm', true, false)
    ensures Work(m, rank, stack', true, false) < Work(m, rank, stack, true, false)
  {
    var n := |stack|;
    assert n >= 2;
    var r := stack[1..n - 1];
    assert stack[1..] == r + [x];
    assert x in seen && x !in dm && x !in r;
    assert seen' == seen;
    assert stack' == stack[..n - 1];
    assert stack'[1..] == r;
    FreshRecord(com, r, seen, seen, dm, x, depth);
    AccountLeaf(m, rank, com, dm, r, x, depth);
    MarkedRecord(m, com, seen, dm, x, depth, seen');
  }

  /** The fold over the depth map: the sum of every recorded depth. */
  method SumDepths(dm: map<string, nat>) returns (total: nat)
    ensures total == SumOver(dm, dm.Keys)
  {
    total := 0;
    var keys := dm.Keys;
    while keys != {}
      invariant keys <= dm.Keys
      invariant total + SumOver(dm, keys) == SumOver(dm, dm.Keys)
      decreases |keys|
    {
      assert (forall z :: z !in keys) ==> keys == {};
      var key :| key in keys;
      SumOverRemove(dm, keys, key);
      total := total + dm[key];
      keys := keys - {key};
    }
  }

  /**
   * One pass of `count_orbits`'s loop on a name at the top of the stack: it
   * is marked seen; if it was seen already it is popped and its depth
   * recorded; if it has orbiters, a marker goes on and the orbiters not yet
   * seen go on above it.
   */
  method VisitTop(m: OrbitMap, stack: seq<string>, seen: set<string>, depth: nat, depthMap: map<string, nat>)
    returns (stack': seq<string>, seen': set<string>, depth': nat, depthMap': map<string, nat>)
    requires stack != []
    ensures Visit(m, stack, seen, depth, depthMap, stack[|stack| - 1], stack', seen', depth', depthMap')
  {
    var top := stack[|stack| - 1];
    stack', seen', depth', depthMap' := stack, seen, depth, depthMap;
    var inserted := top !in seen';
    seen' := seen' + {top};
    if !inserted {
      depthMap' := depthMap'[top := depth'];
      stack' := stack'[..|stack'| - 1];
    }
    if top in m {
      stack' := stack' + [Separator];
      depth' := depth' + 1;
      stack', seen' := PushUnseen(stack', seen', m[top]);
    }
  }

  /** Every pass on a name keeps the invariant and shrinks the work left; the root is recorded when it comes back to the top. */
  lemma {:induction false} VisitKeeps(m: OrbitMap, rank: map<string, nat>, com: string, stack: seq<string>, seen: set<string>, depth: nat,
                                      dm: map<string, nat>, started: bool, comDone: bool, stack': seq<string>, seen': set<string>, depth': nat,
                                      dm': map<string, nat>)
    requires Ranked(m, rank) && Tree(m) && NoSeparator(m)
    requires Walking(m, rank, com, stack, seen, depth, dm, started, comDone)
    requires stack != [] && stack[|stack| - 1] != Separator
    requires Visit(m, stack, seen, depth, dm, stack[|stack| - 1], stack', seen', depth', dm')
    ensures Walking(m, rank, com, stack', seen', depth', dm', true, comDone || (started && stack[|stack| - 1] == com))
    ensures Work(m, rank, stack', true, comDone || (started && stack[|stack| - 1] == com)) < Work(m, rank, stack, started, comDone)
  {
    var top := stack[|stack| - 1];
    if top in m {
      KidsUnseen(m, com, dm, top);
    }
    if !started {
      VisitFirst(m, rank, com, stack, seen, depth, dm, top, stack', seen', depth', dm');
    } else if comDone {
      // Unreachable: once COM is recorded the stack holds at most the separator, and the top here is a name.
      assert false;
    } else if top == com {
      VisitCom(m, rank, com, stack, seen, depth, dm, stack', seen', depth', dm');
    } else if top in m {
      VisitCentre(m, rank, com, stack, seen, depth, dm, top, stack', seen', depth', dm');
    } else {
      VisitLeaf(m, rank, com, stack, seen, depth, dm, top, stack', seen', depth', dm');
    }
  }

  /** Once the stack is empty every depth has been recorded and their sum is the root's total. */
  lemma {:induction false} WalkDone(m: OrbitMap, rank: map<string, nat>, com: string, seen: set<string>, depth: nat,
                                    dm: map<string, nat>, started: bool, comDone: bool)
    requires Ranked(m, rank)
    requires Walking(m, rank, com, [], seen, depth, dm, started, comDone)
    ensures SumOver(dm, dm.Keys) == Total(m, rank, com, 0)
  {
    assert Base(started, comDone) == 0;
  }

  /** The loop of `count_orbits`, from the root alone on the stack to the empty stack: the depths it records add up to the root's total. */
  method Walk(m: OrbitMap, ghost rank: map<string, nat>, com: string) returns (depthMap: map<string, nat>)
    requires Ranked(m, rank) && Tree(m) && NoSeparator(m) && com in m && Roots(m) == {com}
    ensures SumOver(depthMap, depthMap.Keys) == Total(m, rank, com, 0)
  {
    var seen: set<string> := {};
    depthMap := map[];
    var stack := [com];
    var depth: nat := 0;
    ghost var started, comDone := false, false;
    WalkStart(m, rank, com);
    while stack != []
      invariant Walking(m, rank, com, stack, seen, depth, depthMap, started, comDone)
      decreases Work(m, rank, stack, started, comDone)
    {
      if stack[|stack| - 1] == Separator {
        StepSeparator(m, rank, com, stack, seen, depth, depthMap, started, comDone);
        stack := stack[..|stack| - 1];
        depth := depth - 1;
      } else {
        ghost var top := stack[|stack| - 1];
        var stack', seen', depth', depthMap' := VisitTop(m, stack, seen, depth, depthMap);
        VisitKeeps(m, rank, com, stack, seen, depth, depthMap, started, comDone, stack', seen', depth', depthMap');
        stack, seen, depth, depthMap := stack', seen', depth', depthMap';
        started, comDone := true, comDone || (started && top == com);
      }
    }
    WalkDone(m, rank, com, seen, depth, depthMap, started, comDone);
  }

  /**
   * `count_orbits`: the number of direct and indirect orbits, which is the
   * root's total; no result where finding the root panics.
   */
  method CountOrbits(m: OrbitMap, ghost rank: map<string, nat>) returns (r: Option<nat>)
    requires Ranked(m, rank) && Tree(m) && NoSeparator(m)
    ensures r.None? <==> |Roots(m)| != 1
    ensures r.Some? ==> forall com | com in Roots(m) :: r.value == Total(m, rank, com, 0)
  {
    var found := FindLeftmostCom(m);
    if found.Err? {
      return None;
    }
    var com := found.value;
    var depthMap := Walk(m, rank, com);
    var total := SumDepths(depthMap);
    return Some(total);
  }
}
