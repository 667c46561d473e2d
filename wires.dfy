/**
 * Day 3: two wires laid out on a grid from a common origin, each given as a
 * list of moves such as "R75" or "U7". The first answer is the Manhattan
 * distance from the origin of the closest cell both wires visit; the second
 * is the smallest combined number of steps the wires take to reach a cell
 * they share.
 */
module Wires {
  import opened Outcomes
  import opened Text

  /** A grid cell: (x, y), with y growing upwards. */
  type Cell = (int, int)

  /** What the two puzzle functions produce: a value, the direction error, or a panic. */
  datatype Answer = Ok(value: int) | Err(message: string) | Panic

  const DirectionNotFound: string := "direction not found"

  /** The unit vector a direction letter stands for. */
  function Direction(letter: string): (d: Option<Cell>)
    ensures d.Some? <==> letter in {"U", "D", "L", "R"}
    ensures d.Some? ==> Abs(d.value.0) + Abs(d.value.1) == 1
  {
    if letter == "U" then Some((0, 1))
    else if letter == "D" then Some((0, -1))
    else if letter == "L" then Some((-1, 0))
    else if letter == "R" then Some((1, 0))
    else None
  }

  /** One move of a wire, as the source reads it. */
  datatype Move = Go(dir: Cell, length: int) | UnknownDirection | Unparsable

  /**
   * Reading one move: the first character is the direction and the rest the
   * length as an `i32`. An empty code makes `split_at(1)` panic and a length
   * that does not parse makes `unwrap` panic; both happen before the
   * direction letter is looked at.
   */
  function ParseMove(code: string): (m: Move)
    ensures m.Go? <==> |code| >= 1 && ParseInt(code[1..], I32Min, I32Max).Some? && Direction(code[..1]).Some?
    ensures m.Go? ==> m.length == ParseInt(code[1..], I32Min, I32Max).value && Some(m.dir) == Direction(code[..1])
    ensures m.UnknownDirection? <==> |code| >= 1 && ParseInt(code[1..], I32Min, I32Max).Some? && Direction(code[..1]).None?
  {
    if |code| == 0 then Unparsable
    else
      match ParseInt(code[1..], I32Min, I32Max)
      case None => Unparsable
      case Some(n) =>
        match Direction(code[..1])
        case None => UnknownDirection
        case Some(d) => Go(d, n)
  }

  function Add(p: Cell, d: Cell): Cell { (p.0 + d.0, p.1 + d.1) }

  /** Where a walk that started at `from` stands after visiting `cells`. */
  function End(from: Cell, cells: seq<Cell>): Cell
  {
    if cells == [] then from else cells[|cells| - 1]
  }

  /** Where a wire stands after visiting `cells` from the origin. */
  function Last(cells: seq<Cell>): Cell { End((0, 0), cells) }

  /**
   * The cells a move of `n` unit steps in direction `d` visits, starting next
   * to `from`; a length of zero or less visits nothing.
   */
  function Trail(from: Cell, d: Cell, n: int): (t: seq<Cell>)
    ensures |t| == if n > 0 then n else 0
    decreases n
  {
    if n <= 0 then [] else var t := Trail(from, d, n - 1); t + [Add(End(from, t), d)]
  }

  /** A move goes in a straight line: each cell is one step of `d` past the one before it. */
  lemma {:induction false} TrailIsStraight(from: Cell, d: Cell, n: int)
    ensures var t := Trail(from, d, n);
      (|t| > 0 ==> t[0] == Add(from, d)) && forall i | 0 < i < |t| :: t[i] == Add(t[i - 1], d)
    decreases n
  {
    if n > 0 {
      TrailIsStraight(from, d, n - 1);
    }
  }

  /** The cells a whole wire visits in order (the origin is not one of them), or why it could not be laid. */
  datatype Path = Walked(cells: seq<Cell>) | BadDirection | Crashed

  /** The early return a failed walk causes: the direction error, or a panic. */
  function Failure(p: Path): (r: Option<Answer>)
    ensures r.None? <==> p.Walked?
    ensures r.Some? ==> !r.value.Ok?
  {
    match p
    case Walked(_) => None
    case BadDirection => Some(Err(DirectionNotFound))
    case Crashed => Some(Panic)
  }

  /** The moves of a wire carried out in order, stopping at the first one that cannot be read. */
  function Walk(codes: seq<string>): Path
    decreases |codes|
  {
    if codes == [] then Walked([])
    else
      var before := Walk(codes[..|codes| - 1]);
      if !before.Walked? then before
      else
        match ParseMove(codes[|codes| - 1])
        case Go(d, n) => Walked(before.cells + Trail(Last(before.cells), d, n))
        case UnknownDirection => BadDirection
        case Unparsable => Crashed
  }

  /** A wire that fails at some move fails the same way however many moves follow. */
  lemma {:induction false} WalkFailureSticks(codes: seq<string>, i: nat)
    requires i <= |codes| && !Walk(codes[..i]).Walked?
    ensures Walk(codes) == Walk(codes[..i])
    decreases |codes|
  {
    if i < |codes| {
      assert codes[..|codes| - 1][..i] == codes[..i];
      WalkFailureSticks(codes[..|codes| - 1], i);
      assert codes[..|codes|] == codes;
    } else {
      assert codes[..i] == codes;
    }
  }

  /** Two cells are one unit step apart. */
  predicate Adjacent(p: Cell, q: Cell)
  {
    Abs(q.0 - p.0) + Abs(q.1 - p.1) == 1
  }

  /** A list of cells walked from `from` one unit step at a time. */
  predicate Continuous(from: Cell, cells: seq<Cell>)
  {
    (|cells| > 0 ==> Adjacent(from, cells[0])) && forall i | 0 < i < |cells| :: Adjacent(cells[i - 1], cells[i])
  }

  lemma {:induction false} ContinuousAppend(from: Cell, a: seq<Cell>, b: seq<Cell>)
    requires Continuous(from, a) && Continuous(End(from, a), b)
    ensures Continuous(from, a + b)
  {
    var c := a + b;
    forall i | 0 < i < |c| ensures Adjacent(c[i - 1], c[i]) {
      if i > |a| {
        assert c[i] == b[i - |a|] && c[i - 1] == b[i - 1 - |a|];
      } else if i < |a| {
        assert c[i] == a[i] && c[i - 1] == a[i - 1];
      }
    }
  }

  lemma {:induction false} TrailIsContinuous(from: Cell, d: Cell, n: int)
    requires Abs(d.0) + Abs(d.1) == 1
    ensures Continuous(from, Trail(from, d, n))
    decreases n
  {
    if n > 0 {
      var t := Trail(from, d, n - 1);
      TrailIsContinuous(from, d, n - 1);
      ContinuousAppend(from, t, [Add(End(from, t), d)]);
    }
  }

  /** A wire moves one unit step at a time: its first cell is next to the origin and each cell next to the one before. */
  lemma {:induction false} WalkIsContinuous(codes: seq<string>)
    requires Walk(codes).Walked?
    ensures Continuous((0, 0), Walk(codes).cells)
    decreases |codes|
  {
    if codes != [] {
      var before := Walk(codes[..|codes| - 1]).cells;
      WalkIsContinuous(codes[..|codes| - 1]);
      var m := ParseMove(codes[|codes| - 1]);
      TrailIsContinuous(Last(before), m.dir, m.length);
      ContinuousAppend((0, 0), before, Trail(Last(before), m.dir, m.length));
    }
  }

  /** `manhattan_distance`. */
  function ManhattanDistance(p: Cell, q: Cell): (d: int)
    ensures d >= 0
  {
    Abs(q.1 - p.1) + Abs(q.0 - p.0)
  }

  /** The distance is symmetric and is zero exactly between a cell and itself. */
  lemma ManhattanMetric(p: Cell, q: Cell)
    ensures ManhattanDistance(p, q) == ManhattanDistance(q, p)
    ensures ManhattanDistance(p, q) == 0 <==> p == q
  {
  }

  /** The cells of a list, as the grid the first wire fills. */
  function Cells(cells: seq<Cell>): set<Cell>
  {
    set c | c in cells
  }

  lemma {:induction false} CellsSnoc(cells: seq<Cell>, c: Cell)
    ensures Cells(cells + [c]) == Cells(cells) + {c}
  {
    assert forall x | x in cells + [c] :: x in cells || x == c;
  }

  /** The cells of the second wire's path that lie on the grid, in the order the wire reaches them. */
  function Crossings(path: seq<Cell>, grid: set<Cell>): seq<Cell>
    decreases |path|
  {
    if path == [] then []
    else Crossings(path[..|path| - 1], grid) + if path[|path| - 1] in grid then [path[|path| - 1]] else []
  }

  /** The crossings are exactly the cells of the path that lie on the grid. */
  lemma {:induction false} CrossingsAreShared(path: seq<Cell>, grid: set<Cell>)
    ensures forall c | c in Crossings(path, grid) :: c in grid && c in path
    ensures forall i | 0 <= i < |path| && path[i] in grid :: path[i] in Crossings(path, grid)
    decreases |path|
  {
    if path != [] {
      var rest := path[..|path| - 1];
      CrossingsAreShared(rest, grid);
      assert forall i | 0 <= i < |rest| :: rest[i] == path[i];
      assert forall c | c in rest :: c in path;
    }
  }

  /** Each cell's distance from the origin. */
  function Distances(cells: seq<Cell>): (r: seq<int>)
    ensures |r| == |cells| && forall i | 0 <= i < |r| :: r[i] == ManhattanDistance(cells[i], (0, 0))
  {
    if cells == [] then [] else Distances(cells[..|cells| - 1]) + [ManhattanDistance(cells[|cells| - 1], (0, 0))]
  }

  /** What `wire_crossing_manhattan` returns for the two wires. */
  function ClosestCrossing(wire1: seq<string>, wire2: seq<string>): Answer
  {
    var p1, p2 := Walk(wire1), Walk(wire2);
    if Failure(p1).Some? then Failure(p1).value
    else if Failure(p2).Some? then Failure(p2).value
    else
      var hits := Crossings(p2.cells, Cells(p1.cells));
      if hits == [] then Panic else Ok(Minimum(Distances(hits)))
  }

  /**
   * When both wires can be laid, the answer is the least distance from the
   * origin over the cells both visit, and there is none (a panic) exactly
   * when they share no cell.
   */
  lemma ClosestCrossingIsClosest(wire1: seq<string>, wire2: seq<string>)
    requires Walk(wire1).Walked? && Walk(wire2).Walked?
    ensures var shared := Cells(Walk(wire1).cells) * Cells(Walk(wire2).cells);
      && (ClosestCrossing(wire1, wire2).Panic? <==> shared == {})
      && (ClosestCrossing(wire1, wire2).Ok? ==>
            (exists c | c in shared :: ManhattanDistance(c, (0, 0)) == ClosestCrossing(wire1, wire2).value)
            && forall c | c in shared :: ClosestCrossing(wire1, wire2).value <= ManhattanDistance(c, (0, 0)))
  {
    var p1, p2 := Walk(wire1).cells, Walk(wire2).cells;
    var shared := Cells(p1) * Cells(p2);
    var hits := Crossings(p2, Cells(p1));
    CrossingsAreShared(p2, Cells(p1));
    forall c | c in shared ensures c in hits {
      var i :| 0 <= i < |p2| && p2[i] == c;
    }
    if hits != [] {
      var ds := Distances(hits);
      var v := Minimum(ds);
      var j :| 0 <= j < |ds| && ds[j] == v;
      assert hits[j] in shared;
      forall c | c in shared ensures v <= ManhattanDistance(c, (0, 0)) {
        var i :| 0 <= i < |hits| && hits[i] == c;
        assert ds[i] in ds;
      }
    }
  }

  /** The step count at which the first wire last visited each cell of its grid. */
  function StepGrid(path: seq<Cell>): (grid: map<Cell, int>)
    ensures grid.Keys == Cells(path)
    decreases |path|
  {
    if path == [] then map[]
    else
      var rest := path[..|path| - 1];
      assert path == rest + [path[|path| - 1]];
      CellsSnoc(rest, path[|path| - 1]);
      StepGrid(rest)[path[|path| - 1] := |path|]
  }

  /** A revisited cell keeps the step count of its most recent visit: the position of its last occurrence, plus one. */
  lemma {:induction false} StepGridKeepsLatest(path: seq<Cell>, i: nat)
    requires i < |path| && forall j | i < j < |path| :: path[j] != path[i]
    ensures StepGrid(path)[path[i]] == i + 1
    decreases |path|
  {
    if i < |path| - 1 {
      var rest := path[..|path| - 1];
      assert rest[i] == path[i];
      StepGridKeepsLatest(rest, i);
    }
  }

  /** A step of the second wire onto a grid cell adds one sum; any other step adds none. */
  lemma {:induction false} StepSumsSnoc(path: seq<Cell>, c: Cell, grid: map<Cell, int>)
    ensures StepSums(path + [c], grid) == StepSums(path, grid) + if c in grid then [grid[c] + |path| + 1] else []
  {
    var p := path + [c];
    assert p[..|p| - 1] == path && p[|p| - 1] == c;
  }

  /** For each step of the second wire onto the grid: the two wires' step counts added. */
  function StepSums(path: seq<Cell>, grid: map<Cell, int>): seq<int>
    decreases |path|
  {
    if path == [] then []
    else
      var c := path[|path| - 1];
      StepSums(path[..|path| - 1], grid) + if c in grid then [grid[c] + |path|] else []
  }

  /** Each step of the second wire onto the grid contributes its sum. */
  lemma {:induction false} StepSumsCover(path: seq<Cell>, grid: map<Cell, int>, i: nat)
    requires i < |path| && path[i] in grid
    ensures grid[path[i]] + i + 1 in StepSums(path, grid)
    decreases |path|
  {
    if i < |path| - 1 {
      var rest := path[..|path| - 1];
      assert rest[i] == path[i];
      StepSumsCover(rest, grid, i);
    }
  }

  /** Every sum belongs to some step of the second wire onto the grid. */
  lemma {:induction false} StepSumsComeFromSteps(path: seq<Cell>, grid: map<Cell, int>, s: int)
    requires s in StepSums(path, grid)
    ensures exists i | 0 <= i < |path| :: path[i] in grid && s == grid[path[i]] + i + 1
    decreases |path|
  {
    var rest := path[..|path| - 1];
    if s in StepSums(rest, grid) {
      StepSumsComeFromSteps(rest, grid, s);
      var i :| 0 <= i < |rest| && rest[i] in grid && s == grid[rest[i]] + i + 1;
      assert path[i] == rest[i];
    } else {
      var i := |path| - 1;
      assert path[i] in grid && s == grid[path[i]] + i + 1;
    }
  }

  /** What `wire_crossing_steps` returns for the two wires. */
  function FewestCombinedSteps(wire1: seq<string>, wire2: seq<string>): Answer
  {
    var p1, p2 := Walk(wire1), Walk(wire2);
    if Failure(p1).Some? then Failure(p1).value
    else if Failure(p2).Some? then Failure(p2).value
    else
      var sums := StepSums(p2.cells, StepGrid(p1.cells));
      if sums == [] then Panic else Ok(Minimum(sums))
  }

  /**
   * When both wires can be laid and share a cell, the answer is the least
   * total of the first wire's step count at a shared cell and the second
   * wire's step count there, over every visit of the second wire.
   */
  lemma FewestCombinedStepsIsLeast(wire1: seq<string>, wire2: seq<string>)
    requires Walk(wire1).Walked? && Walk(wire2).Walked?
    ensures var p1, p2 := Walk(wire1).cells, Walk(wire2).cells;
      && (FewestCombinedSteps(wire1, wire2).Panic? <==> Cells(p1) * Cells(p2) == {})
      && (FewestCombinedSteps(wire1, wire2).Ok? ==>
            (exists i | 0 <= i < |p2| && p2[i] in Cells(p1) :: FewestCombinedSteps(wire1, wire2).value == StepGrid(p1)[p2[i]] + i + 1)
            && forall i | 0 <= i < |p2| && p2[i] in Cells(p1) :: FewestCombinedSteps(wire1, wire2).value <= StepGrid(p1)[p2[i]] + i + 1)
  {
    var p1, p2 := Walk(wire1).cells, Walk(wire2).cells;
    var grid := StepGrid(p1);
    var sums := StepSums(p2, grid);
    if Cells(p1) * Cells(p2) != {} {
      var c :| c in Cells(p1) * Cells(p2);
      var i :| 0 <= i < |p2| && p2[i] == c;
      StepSumsCover(p2, grid, i);
    }
    if sums != [] {
      var v := Minimum(sums);
      StepSumsComeFromSteps(p2, grid, v);
      var j :| 0 <= j < |p2| && p2[j] in grid && v == grid[p2[j]] + j + 1;
      assert p2[j] in Cells(p1) * Cells(p2);
      forall i | 0 <= i < |p2| && p2[i] in Cells(p1) ensures v <= grid[p2[i]] + i + 1 {
        StepSumsCover(p2, grid, i);
      }
    }
  }

  /** One move of the first wire: the cells it visits go into the grid. */
  method MarkMove(x0: int, y0: int, d: Cell, n: int, grid0: set<Cell>, ghost walked0: seq<Cell>)
    returns (x: int, y: int, grid: set<Cell>, ghost walked: seq<Cell>)
    requires (x0, y0) == Last(walked0) && grid0 == Cells(walked0)
    ensures walked == walked0 + Trail(Last(walked0), d, n)
    ensures (x, y) == Last(walked) && grid == Cells(walked)
  {
    x, y, grid, walked := x0, y0, grid0, walked0;
    ghost var trail: seq<Cell> := [];
    var k := 0;
    while k < n
      invariant n <= 0 ==> k == 0
      invariant n > 0 ==> 0 <= k <= n
      invariant trail == Trail(Last(walked0), d, k) && walked == walked0 + trail
      invariant (x, y) == End(Last(walked0), trail) && (x, y) == Last(walked)
      invariant grid == Cells(walked)
    {
      x, y := x + d.0, y + d.1;
      CellsSnoc(walked, (x, y));
      grid := grid + {(x, y)};
      trail := trail + [(x, y)];
      walked := walked + [(x, y)];
      k := k + 1;
    }
  }

  /** Lays the first wire: the grid of the cells it visits, or the early return its failure causes. */
  method LayFirstWire(codes: seq<string>) returns (failure: Option<Answer>, grid: set<Cell>)
    ensures failure == Failure(Walk(codes))
    ensures failure.None? ==> grid == Cells(Walk(codes).cells)
  {
    grid := {};
    var x, y := 0, 0;
    ghost var walked: seq<Cell> := [];
    for i := 0 to |codes|
      invariant Walk(codes[..i]) == Walked(walked)
      invariant (x, y) == Last(walked) && grid == Cells(walked)
    {
      assert codes[..i + 1][..i] == codes[..i];
      var m := ParseMove(codes[i]);
      if !m.Go? {
        WalkFailureSticks(codes, i + 1);
        return if m.Unparsable? then Some(Panic) else Some(Err(DirectionNotFound)), grid;
      }
      x, y, grid, walked := MarkMove(x, y, m.dir, m.length, grid, walked);
    }
    assert codes[..|codes|] == codes;
    return None, grid;
  }

  /** One move of the second wire: the cells it visits that lie on the grid are collected. */
  method CrossMove(x0: int, y0: int, d: Cell, n: int, grid: set<Cell>, hits0: seq<Cell>, ghost walked0: seq<Cell>)
    returns (x: int, y: int, hits: seq<Cell>, ghost walked: seq<Cell>)
    requires (x0, y0) == Last(walked0) && hits0 == Crossings(walked0, grid)
    ensures walked == walked0 + Trail(Last(walked0), d, n)
    ensures (x, y) == Last(walked) && hits == Crossings(walked, grid)
  {
    x, y, hits, walked := x0, y0, hits0, walked0;
    ghost var trail: seq<Cell> := [];
    var k := 0;
    while k < n
      invariant n <= 0 ==> k == 0
      invariant n > 0 ==> 0 <= k <= n
      invariant trail == Trail(Last(walked0), d, k) && walked == walked0 + trail
      invariant (x, y) == End(Last(walked0), trail) && (x, y) == Last(walked)
      invariant hits == Crossings(walked, grid)
    {
      x, y := x + d.0, y + d.1;
      assert (walked + [(x, y)])[..|walked|] == walked;
      if (x, y) in grid {
        hits := hits + [(x, y)];
      }
      trail := trail + [(x, y)];
      walked := walked + [(x, y)];
      k := k + 1;
    }
  }

  /** Walks the second wire: the cells it visits that lie on the grid, or the early return its failure causes. */
  method CrossSecondWire(codes: seq<string>, grid: set<Cell>) returns (failure: Option<Answer>, hits: seq<Cell>)
    ensures failure == Failure(Walk(codes))
    ensures failure.None? ==> hits == Crossings(Walk(codes).cells, grid)
  {
    hits := [];
    var x, y := 0, 0;
    ghost var walked: seq<Cell> := [];
    for i := 0 to |codes|
      invariant Walk(codes[..i]) == Walked(walked)
      invariant (x, y) == Last(walked) && hits == Crossings(walked, grid)
    {
      assert codes[..i + 1][..i] == codes[..i];
      var m := ParseMove(codes[i]);
      if !m.Go? {
        WalkFailureSticks(codes, i + 1);
        return if m.Unparsable? then Some(Panic) else Some(Err(DirectionNotFound)), hits;
      }
      x, y, hits, walked := CrossMove(x, y, m.dir, m.length, grid, hits, walked);
    }
    assert codes[..|codes|] == codes;
    return None, hits;
  }

  /** The distance from the origin of each crossing, in order. */
  method DistancesFromOrigin(hits: seq<Cell>) returns (distances: seq<int>)
    ensures distances == Distances(hits)
  {
    distances := [];
    for i := 0 to |hits|
      invariant distances == Distances(hits[..i])
    {
      assert hits[..i + 1][..i] == hits[..i];
      distances := distances + [ManhattanDistance(hits[i], (0, 0))];
    }
    assert hits[..|hits|] == hits;
  }

  /** `wire_crossing_manhattan`. */
  method WireCrossingManhattan(wire1: seq<string>, wire2: seq<string>) returns (r: Answer)
    ensures r == ClosestCrossing(wire1, wire2)
  {
    var failure, grid := LayFirstWire(wire1);
    if failure.Some? { return failure.value; }
    var hits;
    failure, hits := CrossSecondWire(wire2, grid);
    if failure.Some? { return failure.value; }
    var distances := DistancesFromOrigin(hits);
    if |distances| == 0 { return Panic; }
    return Ok(Minimum(distances));
  }

  /** One move of the first wire: each cell it visits records the running step count. */
  method CountMove(x0: int, y0: int, d: Cell, n: int, steps0: int, grid0: map<Cell, int>, ghost walked0: seq<Cell>)
    returns (x: int, y: int, steps: int, grid: map<Cell, int>, ghost walked: seq<Cell>)
    requires (x0, y0) == Last(walked0) && steps0 == |walked0| && grid0 == StepGrid(walked0)
    ensures walked == walked0 + Trail(Last(walked0), d, n)
    ensures (x, y) == Last(walked) && steps == |walked| && grid == StepGrid(walked)
  {
    x, y, steps, grid, walked := x0, y0, steps0, grid0, walked0;
    ghost var trail: seq<Cell> := [];
    var k := 0;
    while k < n
      invariant n <= 0 ==> k == 0
      invariant n > 0 ==> 0 <= k <= n
      invariant trail == Trail(Last(walked0), d, k) && walked == walked0 + trail
      invariant (x, y) == End(Last(walked0), trail) && (x, y) == Last(walked)
      invariant steps == |walked| && grid == StepGrid(walked)
    {
      steps := steps + 1;
      x, y := x + d.0, y + d.1;
      assert (walked + [(x, y)])[..|walked|] == walked;
      grid := grid[(x, y) := steps];
      trail := trail + [(x, y)];
      walked := walked + [(x, y)];
      k := k + 1;
    }
  }

  /** Lays the first wire: the step count of each cell's latest visit, or the early return its failure causes. */
  method CountFirstWire(codes: seq<string>) returns (failure: Option<Answer>, grid: map<Cell, int>)
    ensures failure == Failure(Walk(codes))
    ensures failure.None? ==> grid == StepGrid(Walk(codes).cells)
  {
    grid := map[];
    var x, y := 0, 0;
    var steps := 0;
    ghost var walked: seq<Cell> := [];
    for i := 0 to |codes|
      invariant Walk(codes[..i]) == Walked(walked)
      invariant (x, y) == Last(walked) && steps == |walked| && grid == StepGrid(walked)
    {
      assert codes[..i + 1][..i] == codes[..i];
      var m := ParseMove(codes[i]);
      if !m.Go? {
        WalkFailureSticks(codes, i + 1);
        return if m.Unparsable? then Some(Panic) else Some(Err(DirectionNotFound)), grid;
      }
      x, y, steps, grid, walked := CountMove(x, y, m.dir, m.length, steps, grid, walked);
    }
    assert codes[..|codes|] == codes;
    return None, grid;
  }

  /** One move of the second wire: each visit to a grid cell adds up both wires' step counts. */
  method SumMove(x0: int, y0: int, d: Cell, n: int, steps0: int, grid: map<Cell, int>, totals0: seq<int>, ghost walked0: seq<Cell>)
    returns (x: int, y: int, steps: int, totals: seq<int>, ghost walked: seq<Cell>)
    requires (x0, y0) == Last(walked0) && steps0 == |walked0| && totals0 == StepSums(walked0, grid)
    ensures walked == walked0 + Trail(Last(walked0), d, n)
    ensures (x, y) == Last(walked) && steps == |walked| && totals == StepSums(walked, grid)
  {
    x, y, steps, totals, walked := x0, y0, steps0, totals0, walked0;
    ghost var trail: seq<Cell> := [];
    var k := 0;
    while k < n
      invariant n <= 0 ==> k == 0
      invariant n > 0 ==> 0 <= k <= n
      invariant trail == Trail(Last(walked0), d, k) && walked == walked0 + trail
      invariant (x, y) == End(Last(walked0), trail) && (x, y) == Last(walked)
      invariant steps == |walked| && totals == StepSums(walked, grid)
    {
      steps := steps + 1;
      x, y := x + d.0, y + d.1;
      StepSumsSnoc(walked, (x, y), grid);
      if (x, y) in grid {
        totals := totals + [grid[(x, y)] + steps];
      }
      trail := trail + [(x, y)];
      walked := walked + [(x, y)];
      k := k + 1;
    }
  }

  /** Walks the second wire: the step sums at each visit to the grid, or the early return its failure causes. */
  method SumSecondWire(codes: seq<string>, grid: map<Cell, int>) returns (failure: Option<Answer>, totals: seq<int>)
    ensures failure == Failure(Walk(codes))
    ensures failure.None? ==> totals == StepSums(Walk(codes).cells, grid)
  {
    totals := [];
    var steps := 0;
    var x, y := 0, 0;
    ghost var walked: seq<Cell> := [];
    for i := 0 to |codes|
      invariant Walk(codes[..i]) == Walked(walked)
      invariant (x, y) == Last(walked) && steps == |walked| && totals == StepSums(walked, grid)
    {
      assert codes[..i + 1][..i] == codes[..i];
      var m := ParseMove(codes[i]);
      if !m.Go? {
        WalkFailureSticks(codes, i + 1);
        return if m.Unparsable? then Some(Panic) else Some(Err(DirectionNotFound)), totals;
      }
      x, y, steps, totals, walked := SumMove(x, y, m.dir, m.length, steps, grid, totals, walked);
    }
    assert codes[..|codes|] == codes;
    return None, totals;
  }

  /** `wire_crossing_steps`. */
  method WireCrossingSteps(wire1: seq<string>, wire2: seq<string>) returns (r: Answer)
    ensures r == FewestCombinedSteps(wire1, wire2)
  {
    var failure, grid := CountFirstWire(wire1);
    if failure.Some? { return failure.value; }
    var totals;
    failure, totals := SumSecondWire(wire2, grid);
    if failure.Some? { return failure.value; }
    if |totals| == 0 { return Panic; }
    return Ok(Minimum(totals));
  }
}
