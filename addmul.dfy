/**
 * Day 2: the first Intcode machine, which knows only add (1), multiply (2) and
 * halt (99), and the search for the noun/verb pair that produces a wanted
 * value. Memory holds `u32` words; the model keeps them as unbounded naturals.
 */
module AddMulComputer {
  import opened Outcomes

  /** What one fetch at the instruction pointer does. */
  datatype Step = Next(mem: seq<nat>, ip: nat) | Halt | Panic

  /** Operands of an add or multiply at `ip` are all inside memory. */
  predicate OperandsInBounds(mem: seq<nat>, ip: nat)
  {
    ip + 3 < |mem| && mem[ip + 1] < |mem| && mem[ip + 2] < |mem| && mem[ip + 3] < |mem|
  }

  /** One iteration of the interpreter loop of `computer`. */
  function StepAt(mem: seq<nat>, ip: nat): (r: Step)
    ensures r.Halt? <==> ip < |mem| && mem[ip] == 99
    ensures r.Panic? <==> ip >= |mem| || ((mem[ip] == 1 || mem[ip] == 2) && !OperandsInBounds(mem, ip))
    ensures r.Next? ==> r.ip == ip + 4 && |r.mem| == |mem|
    ensures r.Next? && mem[ip] == 1 ==> r.mem[mem[ip + 3]] == mem[mem[ip + 1]] + mem[mem[ip + 2]]
    ensures r.Next? && mem[ip] == 2 ==> r.mem[mem[ip + 3]] == mem[mem[ip + 1]] * mem[mem[ip + 2]]
    ensures r.Next? ==> forall k :: 0 <= k < |mem| && !((mem[ip] == 1 || mem[ip] == 2) && k == mem[ip + 3]) ==> r.mem[k] == mem[k]
  {
    if ip >= |mem| then Panic
    else if mem[ip] == 1 || mem[ip] == 2 then
      if !OperandsInBounds(mem, ip) then Panic
      else
        var a, b := mem[mem[ip + 1]], mem[mem[ip + 2]];
        Next(mem[mem[ip + 3] := if mem[ip] == 1 then a + b else a * b], ip + 4)
    else if mem[ip] == 99 then Halt
    else Next(mem, ip + 4)
  }

  /** The memory `computer` returns when started at `ip`, or None when it panics. */
  function Exec(mem: seq<nat>, ip: nat): (r: Option<seq<nat>>)
    ensures r.Some? ==> |r.value| == |mem|
    decreases |mem| - ip
  {
    match StepAt(mem, ip)
    case Halt => Some(mem)
    case Panic => None
    case Next(m, i) => Exec(m, i)
  }

  /** An unrecognised opcode is skipped: the machine moves on four words and nothing else changes. */
  lemma UnknownOpcodeSkips(mem: seq<nat>, ip: nat)
    requires ip < |mem| && mem[ip] != 1 && mem[ip] != 2 && mem[ip] != 99
    ensures Exec(mem, ip) == Exec(mem, ip + 4)
  {
  }

  /** `computer`: runs the program in place until it halts, returning the final memory. */
  method Computer(program: seq<nat>) returns (r: Option<seq<nat>>)
    ensures r == Exec(program, 0)
    ensures r.Some? ==> |r.value| == |program|
  {
    var vec := new nat[|program|](i requires 0 <= i < |program| => program[i]);
    var index := 0;
    assert vec[..] == program;
    while true
      invariant Exec(vec[..], index) == Exec(program, 0)
      decreases vec.Length - index
    {
      if index >= vec.Length {
        return None;
      }
      var op := vec[index];
      if op == 1 || op == 2 {
        if !(index + 3 < vec.Length && vec[index + 1] < vec.Length && vec[index + 2] < vec.Length && vec[index + 3] < vec.Length) {
          return None;
        }
        var i1, i2, i3 := vec[index + 1], vec[index + 2], vec[index + 3];
        ghost var before := vec[..];
        if op == 1 {
          vec[i3] := vec[i1] + vec[i2];
        } else {
          vec[i3] := vec[i1] * vec[i2];
        }
        assert vec[..] == StepAt(before, index).mem;
      } else if op == 99 {
        return Some(vec[..]);
      }
      index := index + 4;
    }
  }

  /** The outcome of `pair_computer`. */
  datatype PairOutcome = Found(noun: nat, verb: nat) | NoPair | Panicked

  /** The program with the noun and verb written into cells 1 and 2. */
  function Patched(vec: seq<nat>, noun: nat, verb: nat): seq<nat>
    requires |vec| >= 3
  {
    vec[1 := noun][2 := verb]
  }

  /** The search of `pair_computer` from the pair (noun, verb) onward, nouns outer and verbs inner. */
  function Search(vec: seq<nat>, target: nat, noun: nat, verb: nat): PairOutcome
    requires noun <= 100 && verb <= 100
    decreases 100 - noun, 100 - verb
  {
    if noun == 100 then NoPair
    else if verb == 100 then Search(vec, target, noun + 1, 0)
    else if |vec| < 3 then Panicked
    else match Exec(Patched(vec, noun, verb), 0)
      case None => Panicked
      case Some(m) => if m[0] == target then Found(noun, verb) else Search(vec, target, noun, verb + 1)
  }

  /** Pair (a, b) comes strictly before pair (c, d) in the search order. */
  predicate Before(a: nat, b: nat, c: nat, d: nat) { a < c || (a == c && b < d) }

  /** Running the patched program halts and leaves something other than the target in cell 0. */
  predicate Misses(vec: seq<nat>, target: nat, noun: nat, verb: nat)
    requires |vec| >= 3
  {
    var r := Exec(Patched(vec, noun, verb), 0);
    r.Some? && r.value[0] != target
  }

  /** A found pair is in range, produces the target, and every pair searched before it missed. */
  lemma {:induction false} SearchFound(vec: seq<nat>, target: nat, noun: nat, verb: nat)
    requires noun <= 100 && verb <= 100
    requires Search(vec, target, noun, verb).Found?
    ensures var f := Search(vec, target, noun, verb);
      |vec| >= 3 && f.noun <= 99 && f.verb <= 99 && !Before(f.noun, f.verb, noun, verb)
      && Exec(Patched(vec, f.noun, f.verb), 0).Some? && Exec(Patched(vec, f.noun, f.verb), 0).value[0] == target
      && forall a, b :: a <= 99 && b <= 99 && !Before(a, b, noun, verb) && Before(a, b, f.noun, f.verb) ==> Misses(vec, target, a, b)
    decreases 100 - noun, 100 - verb
  {
    if verb == 100 {
      SearchFound(vec, target, noun + 1, 0);
    } else if Exec(Patched(vec, noun, verb), 0).value[0] != target {
      SearchFound(vec, target, noun, verb + 1);
    }
  }

  /** When the search finds nothing, every pair from (noun, verb) onward halted and missed. */
  lemma {:induction false} SearchNoPair(vec: seq<nat>, target: nat, noun: nat, verb: nat)
    requires noun <= 100 && verb <= 100
    requires Search(vec, target, noun, verb).NoPair?
    ensures noun < 100 && verb < 100 ==> |vec| >= 3
    ensures |vec| >= 3 ==> forall a, b :: a <= 99 && b <= 99 && !Before(a, b, noun, verb) ==> Misses(vec, target, a, b)
    decreases 100 - noun, 100 - verb
  {
    if noun < 100 {
      if verb == 100 {
        SearchNoPair(vec, target, noun + 1, 0);
      } else {
        SearchNoPair(vec, target, noun, verb + 1);
      }
    }
  }

  /** A panicking search met, from (noun, verb) onward, a pair whose run panicked after every earlier pair halted and missed. */
  lemma {:induction false} SearchPanicked(vec: seq<nat>, target: nat, noun: nat, verb: nat)
    requires noun <= 100 && verb <= 100
    requires Search(vec, target, noun, verb).Panicked?
    ensures |vec| < 3 || (exists a, b ::
      a <= 99 && b <= 99 && !Before(a, b, noun, verb) && Exec(Patched(vec, a, b), 0).None? &&
      forall c, d :: c <= 99 && d <= 99 && !Before(c, d, noun, verb) && Before(c, d, a, b) ==> Misses(vec, target, c, d))
    decreases 100 - noun, 100 - verb
  {
    if |vec| >= 3 {
      if verb == 100 {
        SearchPanicked(vec, target, noun + 1, 0);
      } else if Exec(Patched(vec, noun, verb), 0).Some? {
        SearchPanicked(vec, target, noun, verb + 1);
      }
    }
  }

  /** If every pair from (noun, verb) onward halts and misses, the search reports that there is no pair. */
  lemma {:induction false} SearchAllMiss(vec: seq<nat>, target: nat, noun: nat, verb: nat)
    requires noun <= 100 && verb <= 100 && |vec| >= 3
    requires forall a, b :: a <= 99 && b <= 99 && !Before(a, b, noun, verb) ==> Misses(vec, target, a, b)
    ensures Search(vec, target, noun, verb).NoPair?
    decreases 100 - noun, 100 - verb
  {
    if noun < 100 {
      if verb == 100 {
        SearchAllMiss(vec, target, noun + 1, 0);
      } else {
        assert Misses(vec, target, noun, verb);
        SearchAllMiss(vec, target, noun, verb + 1);
      }
    }
  }

  /** If (a, b) hits the target and every pair from (noun, verb) up to it halts and misses, the search finds (a, b). */
  lemma {:induction false} SearchFirstHit(vec: seq<nat>, target: nat, noun: nat, verb: nat, a: nat, b: nat)
    requires noun <= 100 && verb <= 100 && |vec| >= 3
    requires a <= 99 && b <= 99 && !Before(a, b, noun, verb)
    requires Exec(Patched(vec, a, b), 0).Some? && Exec(Patched(vec, a, b), 0).value[0] == target
    requires forall c, d :: c <= 99 && d <= 99 && !Before(c, d, noun, verb) && Before(c, d, a, b) ==> Misses(vec, target, c, d)
    ensures Search(vec, target, noun, verb).Found?
    ensures Search(vec, target, noun, verb).noun == a && Search(vec, target, noun, verb).verb == b
    decreases 100 - noun, 100 - verb
  {
    if verb == 100 {
      SearchFirstHit(vec, target, noun + 1, 0, a, b);
    } else if noun != a || verb != b {
      assert Misses(vec, target, noun, verb);
      SearchFirstHit(vec, target, noun, verb + 1, a, b);
    }
  }

  /** `pair_computer`: the first noun/verb pair in 0..=99 that makes cell 0 equal the target. */
  method PairComputer(vec: seq<nat>, target: nat) returns (r: PairOutcome)
    ensures r == Search(vec, target, 0, 0)
  {
    var i := 0;
    while i <= 99
      invariant i <= 100
      invariant Search(vec, target, i, 0) == Search(vec, target, 0, 0)
    {
      var j := 0;
      while j <= 99
        invariant j <= 100
        invariant Search(vec, target, i, j) == Search(vec, target, 0, 0)
      {
        if |vec| < 3 {
          return Panicked;
        }
        var res := Computer(Patched(vec, i, j));
        if res.None? {
          return Panicked;
        }
        if res.value[0] == target {
          return Found(i, j);
        }
        j := j + 1;
      }
      i := i + 1;
    }
    return NoPair;
  }

  /** An add that doubles cell 0. */
  lemma ComputerDoubles()
    ensures Exec([1, 0, 0, 0, 99], 0) == Some([2, 0, 0, 0, 99])
  {
    var a0: seq<nat> := [1, 0, 0, 0, 99];
    assert StepAt(a0, 0) == Next([2, 0, 0, 0, 99], 4);
    assert StepAt([2, 0, 0, 0, 99], 4) == Halt;
  }

  /** A multiply that squares cell 4 into cell 5. */
  lemma ComputerSquares()
    ensures Exec([2, 4, 4, 5, 99, 0], 0) == Some([2, 4, 4, 5, 99, 9801])
  {
    var b0: seq<nat> := [2, 4, 4, 5, 99, 0];
    assert StepAt(b0, 0) == Next([2, 4, 4, 5, 99, 9801], 4);
    assert StepAt([2, 4, 4, 5, 99, 9801], 4) == Halt;
  }

  /** The worked example: an add, then a multiply into cell 0, then halt. */
  lemma ComputerWorkedExample()
    ensures Exec([1, 9, 10, 3, 2, 3, 11, 0, 99, 30, 40, 50], 0) == Some([3500, 9, 10, 70, 2, 3, 11, 0, 99, 30, 40, 50])
  {
    var c0: seq<nat> := [1, 9, 10, 3, 2, 3, 11, 0, 99, 30, 40, 50];
    var c1 := c0[3 := 70];
    var c2 := c1[0 := 3500];
    assert StepAt(c0, 0) == Next(c1, 4);
    assert StepAt(c1, 4) == Next(c2, 8);
    assert StepAt(c2, 8) == Halt;
    assert c2 == [3500, 9, 10, 70, 2, 3, 11, 0, 99, 30, 40, 50];
  }

}
