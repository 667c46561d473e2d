/**
 * Day 6, first half: the orbit map. Each input line "A)B" says that B orbits
 * A; the lines become a map from each centre of mass to the list of its
 * orbiters, the universal centre of mass is the one name that orbits
 * nothing, and the total number of direct and indirect orbits is counted by
 * a depth-first walk with an explicit stack.
 */
module Orbits {
  import opened Outcomes
  import opened Text

  /** `OrbitPair`: `orbiter` orbits `centerOfMass`. */
  datatype OrbitPair = OrbitPair(centerOfMass: string, orbiter: string)

  /** Each centre of mass with the names orbiting it, in input order. */
  type OrbitMap = map<string, seq<string>>

  /** `Result<String, String>`. */
  datatype Found = Ok(value: string) | Err(message: string)

  const Unmatched: string := "unmatched number of differences"

  const OrbitSeparators: set<char> := {')'}

  /** One line: the pieces around ')' are the centre and the orbiter; a line without ')' has no second piece and indexing it panics. */
  function ParsePair(line: string): (p: Option<OrbitPair>)
    ensures p.None? <==> CountIn(line, OrbitSeparators) == 0
  {
    var parts := SplitAny(line, OrbitSeparators);
    SplitAnyShape(line, OrbitSeparators);
    if |parts| < 2 then None else Some(OrbitPair(parts[0], parts[1]))
  }

  /** Writing a pair as "A)B" and reading it back gives the pair, for names without ')'. */
  lemma ParsePairRoundTrip(center: string, orbiter: string)
    requires forall i | 0 <= i < |center| :: center[i] != ')'
    requires forall i | 0 <= i < |orbiter| :: orbiter[i] != ')'
    ensures ParsePair(center + ")" + orbiter) == Some(OrbitPair(center, orbiter))
  {
    SplitAnyFirst(center, ')', orbiter, OrbitSeparators);
    SplitAnyFree(orbiter, OrbitSeparators);
    assert center + ")" + orbiter == center + [')'] + orbiter;
  }

  /** What `parse_pairs` returns: every line parsed in order, or a panic at the first line without ')'. */
  function PairsOf(lines: seq<string>): (r: Option<seq<OrbitPair>>)
    ensures r.Some? <==> forall i | 0 <= i < |lines| :: ParsePair(lines[i]).Some?
    ensures r.Some? ==> |r.value| == |lines| && forall i | 0 <= i < |lines| :: ParsePair(lines[i]) == Some(r.value[i])
    decreases |lines|
  {
    if lines == [] then Some([])
    else
      var front := lines[..|lines| - 1];
      var rest := PairsOf(front);
      assert forall i | 0 <= i < |front| :: front[i] == lines[i];
      match ParsePair(lines[|lines| - 1])
      case None => None
      case Some(p) => if rest.None? then None else Some(rest.value + [p])
  }

  /** `parse_pairs`. */
  method ParsePairs(lines: seq<string>) returns (r: Option<seq<OrbitPair>>)
    ensures r == PairsOf(lines)
  {
    var pairs: seq<OrbitPair> := [];
    for i := 0 to |lines|
      invariant PairsOf(lines[..i]) == Some(pairs)
    {
      assert lines[..i + 1][..i] == lines[..i];
      var p := ParsePair(lines[i]);
      if p.None? {
        assert PairsOf(lines[..i + 1]).None?;
        assert !(forall j | 0 <= j < |lines| :: ParsePair(lines[j]).Some?);
        return None;
      }
      pairs := pairs + [p.value];
    }
    assert lines[..|lines|] == lines;
    return Some(pairs);
  }

  /** The orbiters of `center`, in the order the pairs name them. */
  function OrbitersOf(pairs: seq<OrbitPair>, center: string): seq<string>
    decreases |pairs|
  {
    if pairs == [] then []
    else
      var p := pairs[|pairs| - 1];
      OrbitersOf(pairs[..|pairs| - 1], center) + if p.centerOfMass == center then [p.orbiter] else []
  }

  /** The names that some pair gives as a centre. */
  function Centers(pairs: seq<OrbitPair>): set<string>
  {
    set i | 0 <= i < |pairs| :: pairs[i].centerOfMass
  }

  /** A name gets an orbiter list exactly when some pair names it as a centre, and its list is never empty. */
  lemma {:induction false} OrbitersOfCenters(pairs: seq<OrbitPair>, center: string)
    ensures center in Centers(pairs) <==> OrbitersOf(pairs, center) != []
    decreases |pairs|
  {
    if pairs != [] {
      var front := pairs[..|pairs| - 1];
      OrbitersOfCenters(front, center);
      assert forall i | 0 <= i < |front| :: front[i] == pairs[i];
      if center in Centers(pairs) && pairs[|pairs| - 1].centerOfMass != center {
        var i :| 0 <= i < |pairs| && pairs[i].centerOfMass == center;
        assert center in Centers(front);
      }
    }
  }

  /** `insert_orbits_to_hashmap`: each orbiter appended to its centre's list. */
  method InsertOrbitsToHashmap(pairs: seq<OrbitPair>) returns (m: OrbitMap)
    ensures m.Keys == Centers(pairs)
    ensures forall c | c in m :: m[c] == OrbitersOf(pairs, c)
  {
    m := map[];
    for i := 0 to |pairs|
      invariant m.Keys == Centers(pairs[..i])
      invariant forall c | c in m :: m[c] == OrbitersOf(pairs[..i], c)
    {
      var p := pairs[i];
      assert pairs[..i + 1][..i] == pairs[..i];
      assert Centers(pairs[..i + 1]) == Centers(pairs[..i]) + {p.centerOfMass} by {
        assert forall j | 0 <= j < i :: pairs[..i + 1][j] == pairs[..i][j];
      }
      var list := if p.centerOfMass in m then m[p.centerOfMass] else [];
      OrbitersOfCenters(pairs[..i], p.centerOfMass);
      m := m[p.centerOfMass := list + [p.orbiter]];
    }
    assert pairs[..|pairs|] == pairs;
  }

  /** The names that orbit something, among the lists of the centres in `keys`. */
  function OrbitersIn(m: OrbitMap, keys: set<string>): set<string>
  {
    set k, i | k in keys && k in m && 0 <= i < |m[k]| :: m[k][i]
  }

  /** The centres that orbit nothing. */
  function Roots(m: OrbitMap): set<string>
  {
    m.Keys - OrbitersIn(m, m.Keys)
  }

  /** A set of one element is that element's singleton. */
  lemma SingletonOf(s: set<string>, x: string)
    requires |s| == 1 && x in s
    ensures s == {x}
  {
    assert |s - {x}| == 0;
    assert s - {x} == {};
  }

  /** The elements of a list, as a set. */
  function Elems(xs: seq<string>): set<string>
  {
    set i | 0 <= i < |xs| :: xs[i]
  }

  /** The orbiters of the centres seen so far grow by one centre's list at a time. */
  lemma OrbitersInAdd(m: OrbitMap, keys: set<string>, key: string)
    ensures OrbitersIn(m, keys + {key}) == OrbitersIn(m, keys) + if key in m then Elems(m[key]) else {}
  {
  }

  /** The orbiters of one centre. */
  lemma OrbitersOfOne(m: OrbitMap, key: string)
    requires key in m
    ensures OrbitersIn(m, {key}) == Elems(m[key])
  {
  }

  /** The inner loop: every orbiter of one centre added to the set of right-hand names. */
  method AddOrbiters(right: set<string>, children: seq<string>) returns (r: set<string>)
    ensures r == right + Elems(children)
  {
    r := right;
    for j := 0 to |children|
      invariant r == right + Elems(children[..j])
    {
      assert Elems(children[..j + 1]) == Elems(children[..j]) + {children[j]} by {
        assert forall i | 0 <= i < j :: children[..j + 1][i] == children[..j][i];
      }
      r := r + {children[j]};
    }
    assert children[..|children|] == children;
  }

  /** The two sets `find_leftmost_com` builds, the centres and the orbiters, and their difference. */
  method CentersNotOrbiting(m: OrbitMap) returns (differences: set<string>)
    ensures differences == Roots(m)
  {
    var left: set<string> := {};
    var right: set<string> := {};
    var keys := m.Keys;
    while keys != {}
      invariant keys <= m.Keys
      invariant left == m.Keys - keys
      invariant right == OrbitersIn(m, m.Keys - keys)
      decreases |keys|
    {
      assert (forall z :: z !in keys) ==> keys == {};
      var key :| key in keys;
      OrbitersInAdd(m, m.Keys - keys, key);
      assert m.Keys - (keys - {key}) == (m.Keys - keys) + {key};
      left := left + {key};
      right := AddOrbiters(right, m[key]);
      keys := keys - {key};
    }
    differences := left - right;
  }

  /** `find_leftmost_com`: the centre that orbits nothing, when there is exactly one. */
  method FindLeftmostCom(m: OrbitMap) returns (r: Found)
    ensures r.Ok? <==> |Roots(m)| == 1
    ensures r.Ok? ==> Roots(m) == {r.value}
    ensures r.Err? ==> r.message == Unmatched
  {
    var differences := CentersNotOrbiting(m);
    if |differences| == 1 {
      assert (forall z :: z !in differences) ==> differences == {};
      var root :| root in differences;
      SingletonOf(differences, root);
      return Ok(root);
    }
    return Err(Unmatched);
  }
}
