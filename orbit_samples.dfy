/**
 * Day 6, the sample system of the unit tests: A is orbited by B; B by C, G
 * and H; C by D; and D by E and F. The lemmas work out what the walk, the
 * ancestor search and the jump count answer on it.
 */
module OrbitSamples {
  import opened Outcomes
  import opened Orbits
  import opened OrbitCount
  import opened OrbitRoutes

  /** The orbit map the sample lines build. */
  function SampleMap(): OrbitMap
  {
    map["A" := ["B"], "B" := ["C", "G", "H"], "C" := ["D"], "D" := ["E", "F"]]
  }

  /** A ranking of the sample: each name one level above what orbits it. */
  function SampleRank(): map<string, nat>
  {
    map["A" := 4, "B" := 3, "C" := 2, "D" := 1, "E" := 0, "F" := 0, "G" := 0, "H" := 0]
  }

  /** The sample map is ranked: every orbiter sits one level below what it orbits. */
  lemma SampleRanked()
    ensures Ranked(SampleMap(), SampleRank())
  {
  }

  /** The names no sample object orbits. */
  lemma SampleLeaves()
    ensures "E" !in SampleMap() && "F" !in SampleMap() && "G" !in SampleMap() && "H" !in SampleMap()
  {
  }

  /** D, at depth 3, and E and F below it contribute 3 + 4 + 4. */
  lemma SampleTotalD()
    ensures Ranked(SampleMap(), SampleRank()) && Total(SampleMap(), SampleRank(), "D", 3) == 11
  {
    var m, rank := SampleMap(), SampleRank();
    SampleRanked();
    SampleLeaves();
    assert m["D"] == ["E", "F"];
    assert ListTotal(m, rank, ["E", "F"], 4, 1) == 8 by {
      assert ["E", "F"][..1] == ["E"];
      assert ListTotal(m, rank, ["E"], 4, 1) == 4 by {
        assert ["E"][..0] == [];
      }
    }
  }

  /** C, at depth 2, adds 2 to the subtree of D. */
  lemma SampleTotalC()
    ensures Ranked(SampleMap(), SampleRank()) && Total(SampleMap(), SampleRank(), "C", 2) == 13
  {
    var m, rank := SampleMap(), SampleRank();
    SampleTotalD();
    assert m["C"] == ["D"];
    assert ListTotal(m, rank, ["D"], 3, 2) == 11 by {
      assert ["D"][..0] == [];
    }
  }

  /** B, at depth 1, adds 1 to C's subtree and the leaves G and H at depth 2. */
  lemma SampleTotalB()
    ensures Ranked(SampleMap(), SampleRank()) && Total(SampleMap(), SampleRank(), "B", 1) == 18
  {
    var m, rank := SampleMap(), SampleRank();
    SampleTotalC();
    SampleLeaves();
    assert m["B"] == ["C", "G", "H"];
    var xs := ["C", "G", "H"];
    assert xs[..2] == ["C", "G"] && xs[..2][..1] == ["C"] && xs[..2][..1][..0] == [];
    assert ListTotal(m, rank, ["C"], 2, 3) == 13;
    assert ListTotal(m, rank, ["C", "G"], 2, 3) == 15;
    assert ListTotal(m, rank, xs, 2, 3) == 17;
  }

  /** `count_orbits` on the sample: the depths 0, 1, 2, 2, 2, 3, 4 and 4 add up to 18. */
  lemma SampleCount()
    ensures Ranked(SampleMap(), SampleRank()) && Total(SampleMap(), SampleRank(), "A", 0) == 18
  {
    var m, rank := SampleMap(), SampleRank();
    SampleTotalB();
    assert m["A"] == ["B"];
    assert ListTotal(m, rank, ["B"], 1, 4) == 18 by {
      assert ["B"][..0] == [];
    }
  }

  /** Every sample object orbits one centre, listed once, and none is named like the level marker. */
  lemma SampleTree()
    ensures Tree(SampleMap()) && NoSeparator(SampleMap())
  {
    var m := SampleMap();
    forall k1, k2 | k1 in m && k2 in m ensures Apart(m, k1, k2) {
    }
  }

  /** The sample is a tree without the level marker, rooted at A alone, so `count_orbits` answers 18 on it. */
  lemma SampleShape()
    ensures Roots(SampleMap()) == {"A"}
  {
    var m := SampleMap();
    assert m.Keys == {"A", "B", "C", "D"};
    assert m["A"][0] == "B" && m["B"][0] == "C" && m["C"][0] == "D";
    assert "B" in OrbitersIn(m, m.Keys) && "C" in OrbitersIn(m, m.Keys) && "D" in OrbitersIn(m, m.Keys);
    assert "A" !in OrbitersIn(m, m.Keys);
  }

  /** The sample's ranking and shape, which the route lemmas need. */
  lemma SampleFits()
    ensures Ranked(SampleMap(), SampleRank()) && Tree(SampleMap())
  {
    SampleRanked();
    SampleTree();
  }

  /** The search from D to E. */
  lemma SampleRouteDE()
    ensures Ranked(SampleMap(), SampleRank())
    ensures Route(SampleMap(), SampleRank(), "D", "E") == ["D", "E"]
  {
    SampleFits();
    assert SampleMap()["D"] == ["E", "F"];
    RouteStep(SampleMap(), SampleRank(), "D", 0, "E");
  }

  /** The search from D to F. */
  lemma SampleRouteDF()
    ensures Ranked(SampleMap(), SampleRank())
    ensures Route(SampleMap(), SampleRank(), "D", "F") == ["D", "F"]
  {
    SampleFits();
    assert SampleMap()["D"] == ["E", "F"];
    RouteStep(SampleMap(), SampleRank(), "D", 1, "F");
  }

  /** The search from C to D. */
  lemma SampleRouteCD()
    ensures Ranked(SampleMap(), SampleRank())
    ensures Route(SampleMap(), SampleRank(), "C", "D") == ["C", "D"]
  {
    SampleFits();
    assert SampleMap()["C"] == ["D"];
    RouteStep(SampleMap(), SampleRank(), "C", 0, "D");
  }

  /** The search from C to E. */
  lemma SampleRouteCE()
    ensures Ranked(SampleMap(), SampleRank())
    ensures Route(SampleMap(), SampleRank(), "C", "E") == ["C", "D", "E"]
  {
    SampleFits();
    SampleRouteDE();
    assert SampleMap()["C"] == ["D"];
    RouteStep(SampleMap(), SampleRank(), "C", 0, "E");
  }

  /** The search from C to F. */
  lemma SampleRouteCF()
    ensures Ranked(SampleMap(), SampleRank())
    ensures Route(SampleMap(), SampleRank(), "C", "F") == ["C", "D", "F"]
  {
    SampleFits();
    SampleRouteDF();
    assert SampleMap()["C"] == ["D"];
    RouteStep(SampleMap(), SampleRank(), "C", 0, "F");
  }

  /** The search from B to D. */
  lemma SampleRouteBD()
    ensures Ranked(SampleMap(), SampleRank())
    ensures Route(SampleMap(), SampleRank(), "B", "D") == ["B", "C", "D"]
  {
    SampleFits();
    SampleRouteCD();
    assert SampleMap()["B"] == ["C", "G", "H"];
    RouteStep(SampleMap(), SampleRank(), "B", 0, "D");
  }

  /** The search from B to E. */
  lemma SampleRouteBE()
    ensures Ranked(SampleMap(), SampleRank())
    ensures Route(SampleMap(), SampleRank(), "B", "E") == ["B", "C", "D", "E"]
  {
    SampleFits();
    SampleRouteCE();
    assert SampleMap()["B"] == ["C", "G", "H"];
    RouteStep(SampleMap(), SampleRank(), "B", 0, "E");
  }

  /** The search from B to F. */
  lemma SampleRouteBF()
    ensures Ranked(SampleMap(), SampleRank())
    ensures Route(SampleMap(), SampleRank(), "B", "F") == ["B", "C", "D", "F"]
  {
    SampleFits();
    SampleRouteCF();
    assert SampleMap()["B"] == ["C", "G", "H"];
    RouteStep(SampleMap(), SampleRank(), "B", 0, "F");
  }

  /** The search from B to G. */
  lemma SampleRouteBG()
    ensures Ranked(SampleMap(), SampleRank())
    ensures Route(SampleMap(), SampleRank(), "B", "G") == ["B", "G"]
  {
    SampleFits();
    assert SampleMap()["B"] == ["C", "G", "H"];
    RouteStep(SampleMap(), SampleRank(), "B", 1, "G");
  }

  /** The search from B to H. */
  lemma SampleRouteBH()
    ensures Ranked(SampleMap(), SampleRank())
    ensures Route(SampleMap(), SampleRank(), "B", "H") == ["B", "H"]
  {
    SampleFits();
    assert SampleMap()["B"] == ["C", "G", "H"];
    RouteStep(SampleMap(), SampleRank(), "B", 2, "H");
  }

  /** `rec_find_ancestors` from A to D collects A, B, C, D. */
  lemma SampleAncestors()
    ensures Ranked(SampleMap(), SampleRank())
    ensures Route(SampleMap(), SampleRank(), "A", "D") == ["A", "B", "C", "D"]
  {
    SampleFits();
    SampleRouteBD();
    assert SampleMap()["A"] == ["B"];
    RouteStep(SampleMap(), SampleRank(), "A", 0, "D");
  }

  /** The search from A to E. */
  lemma SampleRouteAE()
    ensures Ranked(SampleMap(), SampleRank())
    ensures Route(SampleMap(), SampleRank(), "A", "E") == ["A", "B", "C", "D", "E"]
  {
    SampleFits();
    SampleRouteBE();
    assert SampleMap()["A"] == ["B"];
    RouteStep(SampleMap(), SampleRank(), "A", 0, "E");
  }

  /** The search from A to F. */
  lemma SampleRouteAF()
    ensures Ranked(SampleMap(), SampleRank())
    ensures Route(SampleMap(), SampleRank(), "A", "F") == ["A", "B", "C", "D", "F"]
  {
    SampleFits();
    SampleRouteBF();
    assert SampleMap()["A"] == ["B"];
    RouteStep(SampleMap(), SampleRank(), "A", 0, "F");
  }

  /** The search from A to G. */
  lemma SampleRouteAG()
    ensures Ranked(SampleMap(), SampleRank())
    ensures Route(SampleMap(), SampleRank(), "A", "G") == ["A", "B", "G"]
  {
    SampleFits();
    SampleRouteBG();
    assert SampleMap()["A"] == ["B"];
    RouteStep(SampleMap(), SampleRank(), "A", 0, "G");
  }

  /** The search from A to H. */
  lemma SampleRouteAH()
    ensures Ranked(SampleMap(), SampleRank())
    ensures Route(SampleMap(), SampleRank(), "A", "H") == ["A", "B", "H"]
  {
    SampleFits();
    SampleRouteBH();
    assert SampleMap()["A"] == ["B"];
    RouteStep(SampleMap(), SampleRank(), "A", 0, "H");
  }

  /** The common ancestor of the routes from A to D and from A to G is B. */
  lemma SampleCommonAncestor()
    ensures CommonAncestor(["A", "B", "C", "D"], ["A", "B", "G"]) == Some("B")
  {
    var p, q := ["A", "B", "C", "D"], ["A", "B", "G"];
    assert p[..2] == q[..2] == ["A", "B"];
    CommonPrefixIs(p, q, 2);
  }

  /** The closest ancestor of F and H, searching from A, is B. */
  lemma SampleClosestAncestor()
    ensures Ranked(SampleMap(), SampleRank())
    ensures ClosestAncestor(SampleMap(), SampleRank(), "A", "F", "H") == Some("B")
  {
    SampleRouteAF();
    SampleRouteAH();
    var p, q := ["A", "B", "C", "D", "F"], ["A", "B", "H"];
    assert p[..2] == q[..2] == ["A", "B"];
    CommonPrefixIs(p, q, 2);
  }

  /** The closest ancestor of F and E, searching from A, is D. */
  lemma SampleClosestSiblings()
    ensures Ranked(SampleMap(), SampleRank())
    ensures ClosestAncestor(SampleMap(), SampleRank(), "A", "F", "E") == Some("D")
  {
    SampleRouteAF();
    SampleRouteAE();
    var p, q := ["A", "B", "C", "D", "F"], ["A", "B", "C", "D", "E"];
    assert p[..4] == q[..4] == ["A", "B", "C", "D"];
    CommonPrefixIs(p, q, 4);
  }

  /** F and E both orbit D, so no jump is needed between them. */
  lemma SampleJumpsSiblings()
    ensures Ranked(SampleMap(), SampleRank())
    ensures Jumps(SampleMap(), SampleRank(), "A", "F", "E") == Some(0)
  {
    SampleClosestSiblings();
    SampleRouteDF();
    SampleRouteDE();
  }

  /** From F's centre D up to B and down to H's centre B takes two jumps. */
  lemma SampleJumpsCousins()
    ensures Ranked(SampleMap(), SampleRank())
    ensures Jumps(SampleMap(), SampleRank(), "A", "F", "H") == Some(2)
  {
    SampleClosestAncestor();
    SampleRouteBF();
    SampleRouteBH();
  }
}
