/**
 * Day 7: a chain of five amplifiers, each a fresh copy of one Intcode
 * program. `computer_ver3` takes its inputs from a vector and writes every
 * output through a shared `&mut i32`; `phase_setter` feeds each amplifier its
 * phase and the previous amplifier's signal; `rec_get_permutations` lists the
 * orderings of the phase values and `try_phase_combinations` keeps the best
 * signal. `computer_ver4` is the channel-driven version used by the threaded
 * feedback loop; its channels are modelled as sequences.
 */
module Amplifiers {
  import opened Outcomes
  import opened Intcode

  /*
   * Permutations, in the order `rec_get_permutations` generates them: a
   * `BTreeSet` is iterated in ascending order, so the first element of each
   * block of permutations runs through the remaining elements from the
   * smallest up.
   */

  /** The smallest element of a non-empty set. */
  function MinOf(s: set<int>): (m: int)
    requires s != {}
    ensures m in s && forall x | x in s :: m <= x
  {
    assert Least(s) in s;
    var m :| m in s && forall x | x in s :: m <= x;
    m
  }

  /** A smallest element, found by setting one element aside and comparing it with the least of the rest. */
  ghost function Least(s: set<int>): (m: int)
    requires s != {}
    ensures m in s && forall x | x in s :: m <= x
    decreases |s|
  {
    assert (forall z :: z !in s) ==> s == {};
    var y :| y in s;
    var rest := s - {y};
    assert forall x | x in s :: x == y || x in rest;
    if rest == {} then y
    else
      var r := Least(rest);
      if y < r then y else r
  }


  /** The permutations extending `current` by every element of `elements`, each used once. */
  function Perms(current: seq<int>, elements: set<int>): seq<seq<int>>
    decreases |elements|, 1
  {
    if elements == {} then [current] else PermsFrom(current, elements, elements)
  }

  /** The blocks of permutations of `elements` whose next element is drawn from `remaining`, smallest first. */
  function PermsFrom(current: seq<int>, elements: set<int>, remaining: set<int>): seq<seq<int>>
    requires remaining <= elements
    decreases |elements|, 0, |remaining|
  {
    if remaining == {} then []
    else
      var m := MinOf(remaining);
      assert |elements - {m}| < |elements| by { assert m in elements; }
      Perms(current + [m], elements - {m}) + PermsFrom(current, elements, remaining - {m})
  }

  /**
   * `rec_get_permutations`: appends to `generated` every permutation that
   * extends `current` with the elements of `elements`.
   */
  method RecGetPermutations(generated: seq<seq<int>>, current: seq<int>, elements: set<int>) returns (out: seq<seq<int>>)
    ensures out == generated + Perms(current, elements)
    decreases |elements|
  {
    if elements == {} {
      return generated + [current];
    }
    out := generated;
    var remaining := elements;
    while remaining != {}
      invariant remaining <= elements
      invariant out + PermsFrom(current, elements, remaining) == generated + Perms(current, elements)
      decreases |remaining|
    {
      var element := MinOf(remaining);
      var nextPerm := current + [element];
      assert element in elements;
      out := RecGetPermutations(out, nextPerm, elements - {element});
      remaining := remaining - {element};
    }
  }

  function Factorial(n: nat): (r: nat)
    ensures r >= 1
  {
    if n == 0 then 1 else n * Factorial(n - 1)
  }

  /** There are n! permutations of n elements. */
  lemma {:induction false} PermsCount(current: seq<int>, elements: set<int>)
    ensures |Perms(current, elements)| == Factorial(|elements|)
    decreases |elements|, 1
  {
    if elements != {} {
      PermsFromCount(current, elements, elements);
    }
  }

  lemma {:induction false} PermsFromCount(current: seq<int>, elements: set<int>, remaining: set<int>)
    requires remaining <= elements && elements != {}
    ensures |PermsFrom(current, elements, remaining)| == |remaining| * Factorial(|elements| - 1)
    decreases |elements|, 0, |remaining|
  {
    if remaining != {} {
      var m := MinOf(remaining);
      PermsCount(current + [m], elements - {m});
      PermsFromCount(current, elements, remaining - {m});
    }
  }

  /** `q` holds every element of `elements` exactly once and nothing else. */
  predicate Arrangement(q: seq<int>, elements: set<int>)
  {
    multiset(q) == multiset(elements)
  }

  /** Each permutation is `current` followed by an arrangement of the elements. */
  lemma {:induction false} PermsShape(current: seq<int>, elements: set<int>, p: seq<int>)
    requires p in Perms(current, elements)
    ensures |p| == |current| + |elements| && p[..|current|] == current && Arrangement(p[|current|..], elements)
    decreases |elements|, 1
  {
    if elements == {} {
      assert p == current;
    } else {
      PermsFromShape(current, elements, elements, p);
    }
  }

  lemma {:induction false} PermsFromShape(current: seq<int>, elements: set<int>, remaining: set<int>, p: seq<int>)
    requires remaining <= elements && p in PermsFrom(current, elements, remaining)
    ensures |p| == |current| + |elements| && p[..|current|] == current && Arrangement(p[|current|..], elements)
    ensures p[|current|] in remaining
    decreases |elements|, 0, |remaining|
  {
    var m := MinOf(remaining);
    if p in Perms(current + [m], elements - {m}) {
      PermsShape(current + [m], elements - {m}, p);
      var c := current + [m];
      assert p[..|current|] == p[..|c|][..|current|];
      assert p[|current|] == p[..|c|][|current|] == m;
      assert p[|current|..] == [m] + p[|c|..];
      assert multiset(elements) == multiset{m} + multiset(elements - {m});
    } else {
      PermsFromShape(current, elements, remaining - {m}, p);
    }
  }

  /** No sequence appears twice. */
  predicate Distinct(ps: seq<seq<int>>)
  {
    forall i, j | 0 <= i < j < |ps| :: ps[i] != ps[j]
  }

  /** All the permutations generated are different. */
  lemma {:induction false} PermsDistinct(current: seq<int>, elements: set<int>)
    ensures Distinct(Perms(current, elements))
    decreases |elements|, 1
  {
    if elements != {} {
      PermsFromDistinct(current, elements, elements);
    }
  }

  lemma {:induction false} PermsFromDistinct(current: seq<int>, elements: set<int>, remaining: set<int>)
    requires remaining <= elements
    ensures Distinct(PermsFrom(current, elements, remaining))
    decreases |elements|, 0, |remaining|
  {
    if remaining != {} {
      var m := MinOf(remaining);
      var a := Perms(current + [m], elements - {m});
      var b := PermsFrom(current, elements, remaining - {m});
      PermsDistinct(current + [m], elements - {m});
      PermsFromDistinct(current, elements, remaining - {m});
      forall i, j | 0 <= i < |a| && 0 <= j < |b| ensures a[i] != b[j] {
        PermsShape(current + [m], elements - {m}, a[i]);
        PermsFromShape(current, elements, remaining - {m}, b[j]);
        assert a[i][|current|] == a[i][..|current| + 1][|current|] == m;
      }
      var ab := a + b;
      forall i, j | 0 <= i < j < |ab| ensures ab[i] != ab[j] {
        if j < |a| {
          assert ab[i] == a[i] && ab[j] == a[j];
        } else if i >= |a| {
          assert ab[i] == b[i - |a|] && ab[j] == b[j - |a|];
        } else {
          assert ab[i] == a[i] && ab[j] == b[j - |a|];
        }
      }
    }
  }

  /*
   * computer_ver3 and the amplifier chain.
   */

  /** What `computer_ver3` leaves behind: its return value and the final value of `*output`. */
  datatype Ver3Result = Ver3Result(outcome: Outcome, output: int)

  /**
   * The result of `computer_ver3` after the run `t`, when `*output` held
   * `output` before it. It returns 0 whenever it halts; reading past the end
   * of its input vector is an index panic.
   */
  function Ver3Of(t: Trace, output: int): (r: Ver3Result)
    ensures r.outcome.Returned? <==> t.status == Halted
    ensures r.outcome.Returned? ==> r.outcome.value == 0
    ensures r.outcome.Panicked? <==> t.status in {AwaitingInput, Faulted}
    ensures r.outcome.Exhausted? <==> t.status == OutOfFuel
    ensures t.outputs == [] ==> r.output == output
    ensures t.outputs != [] ==> r.output == t.outputs[|t.outputs| - 1]
  {
    var last := LastOr(t.outputs, output);
    match t.status
    case Halted => Ver3Result(Returned(0), last)
    case OutOfFuel => Ver3Result(Exhausted, last)
    case _ => Ver3Result(Panicked, last)
  }

  /** `computer_ver3`: runs the program on the given inputs; `output` is the value `*output` held before. */
  method ComputerVer3(program: seq<int>, inputs: seq<int>, output: int, fuel: nat) returns (r: Ver3Result)
    ensures r == Ver3Of(Run(Basic, Boot(program), inputs, 0, [], fuel), output)
  {
    var t := Execute(Basic, program, inputs, fuel);
    r := Ver3Of(t, output);
  }

  /**
   * The signal after amplifiers i to 4 when amplifier i receives `signal`:
   * each stage runs a fresh copy of the program on its phase and the signal
   * before it. A phase list shorter than five is an index panic.
   */
  function Chain(program: seq<int>, phases: seq<int>, i: nat, signal: int, fuel: nat): (r: Outcome)
    requires i <= 5
    ensures !r.Blocked?
    ensures i < 5 && |phases| < 5 ==> !r.Returned?
    decreases 5 - i
  {
    if i == 5 then Returned(signal)
    else if i >= |phases| then Panicked
    else
      var stage := Ver3Of(Run(Basic, Boot(program), [phases[i], signal], 0, [], fuel), signal);
      if stage.outcome.Returned? then Chain(program, phases, i + 1, stage.output, fuel) else stage.outcome
  }

  /** `phase_setter`: the signal out of the last amplifier, the first one receiving 0. */
  method PhaseSetter(program: seq<int>, phaseSetting: seq<int>, fuel: nat) returns (r: Outcome)
    ensures r == Chain(program, phaseSetting, 0, 0, fuel)
  {
    var output := 0;
    for i := 0 to 5
      invariant Chain(program, phaseSetting, i, output, fuel) == Chain(program, phaseSetting, 0, 0, fuel)
    {
      if i >= |phaseSetting| {
        return Panicked;
      }
      var res := ComputerVer3(program, [phaseSetting[i], output], output, fuel);
      if !res.outcome.Returned? {
        return res.outcome;
      }
      output := res.output;
    }
    return Returned(output);
  }
  /**
   * The running maximum of `try_phase_combinations` over the remaining
   * phase settings, starting from `max`. A setting whose chain does not
   * return ends the whole search with that outcome.
   */
  function Best(program: seq<int>, perms: seq<seq<int>>, fuel: nat, max: int): (r: Outcome)
    ensures !r.Blocked?
  {
    if perms == [] then Returned(max)
    else
      var c := Chain(program, perms[0], 0, 0, fuel);
      if c.Returned? then Best(program, perms[1..], fuel, if c.value > max then c.value else max) else c
  }

  /** The search returns a value exactly when every chain returns one. */
  lemma {:induction false} BestReturns(program: seq<int>, perms: seq<seq<int>>, fuel: nat, max: int)
    ensures Best(program, perms, fuel, max).Returned?
      <==> forall k | 0 <= k < |perms| :: Chain(program, perms[k], 0, 0, fuel).Returned?
  {
    if perms != [] {
      var c := Chain(program, perms[0], 0, 0, fuel);
      if c.Returned? {
        BestReturns(program, perms[1..], fuel, if c.value > max then c.value else max);
        assert forall k | 1 <= k < |perms| :: perms[k] == perms[1..][k - 1];
      }
    }
  }

  /**
   * A value the search returns is at least the starting maximum and every
   * chain's signal (every chain then returns one, by `BestReturns`), and it
   * is the starting maximum or one of those signals.
   */
  lemma {:induction false} BestBounds(program: seq<int>, perms: seq<seq<int>>, fuel: nat, max: int)
    ensures var r := Best(program, perms, fuel, max);
      && (r.Returned? ==> r.value >= max)
      && (r.Returned? ==> forall k | 0 <= k < |perms| ::
            Chain(program, perms[k], 0, 0, fuel).Returned? ==> Chain(program, perms[k], 0, 0, fuel).value <= r.value)
      && (r.Returned? ==> r.value == max || exists k | 0 <= k < |perms| :: Chain(program, perms[k], 0, 0, fuel) == Returned(r.value))
  {
    if perms != [] {
      var c := Chain(program, perms[0], 0, 0, fuel);
      if c.Returned? {
        var next := if c.value > max then c.value else max;
        BestBounds(program, perms[1..], fuel, next);
        var r := Best(program, perms, fuel, max);
        assert r == Best(program, perms[1..], fuel, next);
        assert forall k | 1 <= k < |perms| :: perms[k] == perms[1..][k - 1];
        if r.Returned? && r.value != next {
          var j :| 0 <= j < |perms[1..]| && Chain(program, perms[1..][j], 0, 0, fuel) == Returned(r.value);
          assert Chain(program, perms[j + 1], 0, 0, fuel) == Returned(r.value);
        }
        if r.Returned? && r.value == next && next != max {
          assert Chain(program, perms[0], 0, 0, fuel) == Returned(r.value);
        }
      }
    }
  }

  /**
   * `try_phase_combinations`: runs the chain for every ordering of the given
   * phase values and keeps the largest signal, starting from 0.
   */
  method TryPhaseCombinations(program: seq<int>, ints: seq<int>, fuel: nat) returns (r: Outcome)
    ensures r == Best(program, Perms([], set x | x in ints), fuel, 0)
  {
    var max := 0;
    var perms := RecGetPermutations([], [], set x | x in ints);
    assert perms == Perms([], set x | x in ints);
    var k := 0;
    while k < |perms|
      invariant k <= |perms|
      invariant Best(program, perms[k..], fuel, max) == Best(program, perms, fuel, 0)
    {
      assert perms[k..][1..] == perms[k + 1..];
      var res := PhaseSetter(program, perms[k], fuel);
      if !res.Returned? {
        return res;
      }
      if res.value > max {
        max := res.value;
      }
      k := k + 1;
    }
    assert perms[k..] == [];
    return Returned(max);
  }
  /**
   * `computer_ver4`: runs the program on the values received; returns its
   * result and the values it delivered to the receiver.
   */
  method ComputerVer4(program: seq<int>, received: seq<int>, consumerGone: bool, fuel: nat) returns (r: Outcome, sent: seq<int>)
    ensures r == ChannelOutcome(Run(Basic, Boot(program), received, 0, [], fuel), consumerGone)
    ensures !consumerGone ==> sent == Run(Basic, Boot(program), received, 0, [], fuel).outputs
    ensures consumerGone ==> sent == []
  {
    var t := Execute(Basic, program, received, fuel);
    r := ChannelOutcome(t, consumerGone);
    sent := if consumerGone then [] else t.outputs;
  }

  /**
   * With its receiver gone, `computer_ver4` returns what `computer_ver3`
   * leaves in its output cell when that starts at 0: the last value output.
   */
  lemma Ver4MatchesVer3(t: Trace)
    ensures ChannelOutcome(t, true).Returned? <==> Ver3Of(t, 0).outcome.Returned?
    ensures ChannelOutcome(t, true).Returned? ==> ChannelOutcome(t, true).value == Ver3Of(t, 0).output
  {
  }



  /** The signal a chain produces when every stage maps phase p and input x to f(p, x). */
  function Fold(f: (int, int) -> int, phases: seq<int>, i: nat, signal: int): int
    requires i <= 5 <= |phases|
    decreases 5 - i
  {
    if i == 5 then signal else Fold(f, phases, i + 1, f(phases[i], signal))
  }

  /** A program whose every run on [p, x] halts with output f(p, x) makes the chain compute the fold of f. */
  lemma {:induction false} ChainComputes(program: seq<int>, phases: seq<int>, i: nat, signal: int, fuel: nat, f: (int, int) -> int)
    requires i <= 5 <= |phases|
    requires forall p, x :: Ver3Of(Run(Basic, Boot(program), [p, x], 0, [], fuel), x) == Ver3Result(Returned(0), f(p, x))
    ensures Chain(program, phases, i, signal, fuel) == Returned(Fold(f, phases, i, signal))
    decreases 5 - i
  {
    if i < 5 {
      ChainComputes(program, phases, i + 1, f(phases[i], signal), fuel, f);
    }
  }

  /** The first example program: it outputs ten times its input plus its phase. */
  const AmpProgram1: seq<int> := [3, 15, 3, 16, 1002, 16, 10, 16, 1, 16, 15, 15, 4, 15, 99, 0, 0]

  function Amp1Mem(a: int, b: int): seq<int> { [3, 15, 3, 16, 1002, 16, 10, 16, 1, 16, 15, 15, 4, 15, 99, a, b] }

  lemma Amp1ReadsPhase(p: int, x: int, fuel: nat)
    ensures Run(Basic, Boot(AmpProgram1), [p, x], 0, [], fuel + 1) == Run(Basic, Machine(Amp1Mem(p, 0), 2, 0), [p, x], 1, [], fuel)
  {
    var m := Boot(AmpProgram1);
    var ins := Instruction(Input, Positional, Positional, Positional);
    assert Slot(m.mem, 1, 0, Positional) == Some(15);
    assert m.mem[15 := p] == Amp1Mem(p, 0);
    FetchEncoded(Basic, m, ins);
    RunInput(Basic, m, [p, x], 0, [], fuel + 1, ins, 15);
  }

  lemma Amp1ReadsSignal(a: int, p: int, x: int, fuel: nat)
    ensures Run(Basic, Machine(Amp1Mem(a, 0), 2, 0), [p, x], 1, [], fuel + 1) == Run(Basic, Machine(Amp1Mem(a, x), 4, 0), [p, x], 2, [], fuel)
  {
    var m := Machine(Amp1Mem(a, 0), 2, 0);
    var ins := Instruction(Input, Positional, Positional, Positional);
    assert Slot(m.mem, 3, 0, Positional) == Some(16);
    assert m.mem[16 := x] == Amp1Mem(a, x);
    FetchEncoded(Basic, m, ins);
    RunInput(Basic, m, [p, x], 1, [], fuel + 1, ins, 16);
  }

  lemma Amp1Scales(a: int, b: int, r: int, inputs: seq<int>, fuel: nat)
    requires |inputs| == 2 && r == b * 10
    ensures Run(Basic, Machine(Amp1Mem(a, b), 4, 0), inputs, 2, [], fuel + 1) == Run(Basic, Machine(Amp1Mem(a, r), 8, 0), inputs, 2, [], fuel)
  {
    var m := Machine(Amp1Mem(a, b), 4, 0);
    var ins := Instruction(Multiply, Positional, Immediate, Positional);
    assert Load(m.mem, 5, 0, Positional) == Some(b);
    assert Load(m.mem, 6, 0, Immediate) == Some(10);
    assert Slot(m.mem, 7, 0, Positional) == Some(16);
    assert m.mem[16 := Combine(Multiply, b, 10)] == Amp1Mem(a, r);
    FetchEncoded(Basic, m, ins);
    RunCombine(Basic, m, inputs, 2, [], fuel + 1, ins, b, 10, 16);
  }

  lemma Amp1Adds(a: int, b: int, r: int, inputs: seq<int>, fuel: nat)
    requires |inputs| == 2 && r == b + a
    ensures Run(Basic, Machine(Amp1Mem(a, b), 8, 0), inputs, 2, [], fuel + 1) == Run(Basic, Machine(Amp1Mem(r, b), 12, 0), inputs, 2, [], fuel)
  {
    var m := Machine(Amp1Mem(a, b), 8, 0);
    var ins := Instruction(Sum, Positional, Positional, Positional);
    assert Load(m.mem, 9, 0, Positional) == Some(b);
    assert Load(m.mem, 10, 0, Positional) == Some(a);
    assert Slot(m.mem, 11, 0, Positional) == Some(15);
    assert m.mem[15 := Combine(Sum, b, a)] == Amp1Mem(r, b);
    FetchEncoded(Basic, m, ins);
    RunCombine(Basic, m, inputs, 2, [], fuel + 1, ins, b, a, 15);
  }

  lemma Amp1Writes(a: int, b: int, inputs: seq<int>, fuel: nat)
    requires |inputs| == 2
    ensures Run(Basic, Machine(Amp1Mem(a, b), 12, 0), inputs, 2, [], fuel + 1) == Run(Basic, Machine(Amp1Mem(a, b), 14, 0), inputs, 2, [a], fuel)
  {
    var m := Machine(Amp1Mem(a, b), 12, 0);
    var ins := Instruction(Output, Positional, Positional, Positional);
    assert Load(m.mem, 13, 0, Positional) == Some(a);
    FetchEncoded(Basic, m, ins);
    RunOutput(Basic, m, inputs, 2, [], fuel + 1, ins, a);
    assert [] + [a] == [a];
    assert Machine(m.mem, m.ip + 2, m.base) == Machine(Amp1Mem(a, b), 14, 0);
  }

  lemma Amp1Stops(a: int, b: int, inputs: seq<int>, fuel: nat)
    requires |inputs| == 2
    ensures Run(Basic, Machine(Amp1Mem(a, b), 14, 0), inputs, 2, [a], fuel + 1) == Trace(Halted, Machine(Amp1Mem(a, b), 14, 0), 2, [a])
  {
    var m := Machine(Amp1Mem(a, b), 14, 0);
    var ins := Instruction(Stop, Positional, Positional, Positional);
    FetchEncoded(Basic, m, ins);
    RunStop(Basic, m, inputs, 2, [a], fuel + 1, ins);
  }

  lemma Amp1Front(p: int, x: int, b: int, spare: nat)
    requires b == x * 10
    ensures Run(Basic, Boot(AmpProgram1), [p, x], 0, [], spare + 3)
         == Run(Basic, Machine(Amp1Mem(p, b), 8, 0), [p, x], 2, [], spare)
  {
    Amp1ReadsPhase(p, x, spare + 2);
    Amp1ReadsSignal(p, p, x, spare + 1);
    Amp1Scales(p, x, b, [p, x], spare);
  }

  lemma Amp1Back(a: int, b: int, s: int, inputs: seq<int>, spare: nat)
    requires |inputs| == 2 && s == b + a
    ensures Run(Basic, Machine(Amp1Mem(a, b), 8, 0), inputs, 2, [], spare + 3)
         == Trace(Halted, Machine(Amp1Mem(s, b), 14, 0), 2, [s])
  {
    Amp1Adds(a, b, s, inputs, spare + 2);
    Amp1Writes(s, b, inputs, spare + 1);
    Amp1Stops(s, b, inputs, spare);
  }

  /** One amplifier running the first example program turns phase p and signal x into 10x + p. */
  lemma Amp1Stage(p: int, x: int, spare: nat)
    ensures Ver3Of(Run(Basic, Boot(AmpProgram1), [p, x], 0, [], spare + 6), x) == Ver3Result(Returned(0), 10 * x + p)
  {
    var b := x * 10;
    Amp1Front(p, x, b, spare + 3);
    Amp1Back(p, b, b + p, [p, x], spare);
  }

  /** What an amplifier running the first example program outputs for phase p and signal x. */
  function Amp1Law(p: int, x: int): int { 10 * x + p }

  /** Every amplifier running program 1 computes the same function of its phase and signal. */
  lemma Amp1Stages(spare: nat)
    ensures forall p, x :: Ver3Of(Run(Basic, Boot(AmpProgram1), [p, x], 0, [], spare + 6), x) == Ver3Result(Returned(0), Amp1Law(p, x))
  {
    forall p, x ensures Ver3Of(Run(Basic, Boot(AmpProgram1), [p, x], 0, [], spare + 6), x) == Ver3Result(Returned(0), 10 * x + p) {
      Amp1Stage(p, x, spare);
    }
  }

  /** The test of `phase_setter` on the first example program: phases 4, 3, 2, 1, 0 give 43210. */
  lemma PhaseSetterFirstExample(spare: nat)
    ensures Chain(AmpProgram1, [4, 3, 2, 1, 0], 0, 0, spare + 6) == Returned(43210)
  {
    Amp1Stages(spare);
    ChainComputes(AmpProgram1, [4, 3, 2, 1, 0], 0, 0, spare + 6, Amp1Law);
    assert Fold(Amp1Law, [4, 3, 2, 1, 0], 0, 0) == 43210;
  }

  /** The second example program: it outputs ten times its input plus its phase shifted round 0..4 -> 5, 6, 0, 1, 2. */
  const AmpProgram2: seq<int> :=
    [3, 31, 3, 32, 1002, 32, 10, 32, 1001, 31, -2, 31, 1007, 31, 0, 33,
     1002, 33, 7, 33, 1, 33, 31, 31, 1, 32, 31, 31, 4, 31, 99, 0, 0, 0]

  function Amp2Mem(a: int, b: int, c: int): seq<int>
  {
    [3, 31, 3, 32, 1002, 32, 10, 32, 1001, 31, -2, 31, 1007, 31, 0, 33,
     1002, 33, 7, 33, 1, 33, 31, 31, 1, 32, 31, 31, 4, 31, 99, a, b, c]
  }

  lemma Amp2ReadsPhase(p: int, x: int, fuel: nat)
    ensures Run(Basic, Boot(AmpProgram2), [p, x], 0, [], fuel + 1) == Run(Basic, Machine(Amp2Mem(p, 0, 0), 2, 0), [p, x], 1, [], fuel)
  {
    var m := Boot(AmpProgram2);
    var ins := Instruction(Input, Positional, Positional, Positional);
    assert Slot(m.mem, 1, 0, Positional) == Some(31);
    assert m.mem[31 := p] == Amp2Mem(p, 0, 0);
    FetchEncoded(Basic, m, ins);
    RunInput(Basic, m, [p, x], 0, [], fuel + 1, ins, 31);
  }

  lemma Amp2ReadsSignal(a: int, p: int, x: int, fuel: nat)
    ensures Run(Basic, Machine(Amp2Mem(a, 0, 0), 2, 0), [p, x], 1, [], fuel + 1) == Run(Basic, Machine(Amp2Mem(a, x, 0), 4, 0), [p, x], 2, [], fuel)
  {
    var m := Machine(Amp2Mem(a, 0, 0), 2, 0);
    var ins := Instruction(Input, Positional, Positional, Positional);
    assert Slot(m.mem, 3, 0, Positional) == Some(32);
    assert m.mem[32 := x] == Amp2Mem(a, x, 0);
    FetchEncoded(Basic, m, ins);
    RunInput(Basic, m, [p, x], 1, [], fuel + 1, ins, 32);
  }

  lemma Amp2ScalesDecodes(a: int, b: int, r: int)
    requires r == b * 10
    ensures var mem := Amp2Mem(a, b, 0);
      && Fetch(Basic, Machine(mem, 4, 0)) == Some(Instruction(Multiply, Positional, Immediate, Positional))
      && Load(mem, 5, 0, Positional) == Some(b) && Load(mem, 6, 0, Immediate) == Some(10) && Slot(mem, 7, 0, Positional) == Some(32) && mem[32 := Combine(Multiply, b, 10)] == Amp2Mem(a, r, 0)
  {
    var mem := Amp2Mem(a, b, 0);
    assert Load(mem, 5, 0, Positional) == Some(b);
    assert Load(mem, 6, 0, Immediate) == Some(10);
    assert Slot(mem, 7, 0, Positional) == Some(32);
    assert mem[32 := Combine(Multiply, b, 10)] == Amp2Mem(a, r, 0);
    FetchEncoded(Basic, Machine(mem, 4, 0), Instruction(Multiply, Positional, Immediate, Positional));
  }

  /** `1002,32,10,32`: the signal cell times ten. */
  lemma Amp2Scales(a: int, b: int, r: int, inputs: seq<int>, fuel: nat)
    requires |inputs| == 2 && r == b * 10
    ensures Run(Basic, Machine(Amp2Mem(a, b, 0), 4, 0), inputs, 2, [], fuel + 1) == Run(Basic, Machine(Amp2Mem(a, r, 0), 8, 0), inputs, 2, [], fuel)
  {
    Amp2ScalesDecodes(a, b, r);
    RunCombine(Basic, Machine(Amp2Mem(a, b, 0), 4, 0), inputs, 2, [], fuel + 1, Instruction(Multiply, Positional, Immediate, Positional), b, 10, 32);
  }

  lemma Amp2ShiftsDecodes(a: int, b: int, r: int)
    requires r == a + -2
    ensures var mem := Amp2Mem(a, b, 0);
      && Fetch(Basic, Machine(mem, 8, 0)) == Some(Instruction(Sum, Positional, Immediate, Positional))
      && Load(mem, 9, 0, Positional) == Some(a) && Load(mem, 10, 0, Immediate) == Some(-2) && Slot(mem, 11, 0, Positional) == Some(31) && mem[31 := Combine(Sum, a, -2)] == Amp2Mem(r, b, 0)
  {
    var mem := Amp2Mem(a, b, 0);
    assert Load(mem, 9, 0, Positional) == Some(a);
    assert Load(mem, 10, 0, Immediate) == Some(-2);
    assert Slot(mem, 11, 0, Positional) == Some(31);
    assert mem[31 := Combine(Sum, a, -2)] == Amp2Mem(r, b, 0);
    FetchEncoded(Basic, Machine(mem, 8, 0), Instruction(Sum, Positional, Immediate, Positional));
  }

  /** `1001,31,-2,31`: the phase cell minus two. */
  lemma Amp2Shifts(a: int, b: int, r: int, inputs: seq<int>, fuel: nat)
    requires |inputs| == 2 && r == a + -2
    ensures Run(Basic, Machine(Amp2Mem(a, b, 0), 8, 0), inputs, 2, [], fuel + 1) == Run(Basic, Machine(Amp2Mem(r, b, 0), 12, 0), inputs, 2, [], fuel)
  {
    Amp2ShiftsDecodes(a, b, r);
    RunCombine(Basic, Machine(Amp2Mem(a, b, 0), 8, 0), inputs, 2, [], fuel + 1, Instruction(Sum, Positional, Immediate, Positional), a, -2, 31);
  }

  lemma Amp2ComparesDecodes(a: int, b: int, l: int)
    requires l == if a < 0 then 1 else 0
    ensures var mem := Amp2Mem(a, b, 0);
      && Fetch(Basic, Machine(mem, 12, 0)) == Some(Instruction(LessThan, Positional, Immediate, Positional))
      && Load(mem, 13, 0, Positional) == Some(a) && Load(mem, 14, 0, Immediate) == Some(0) && Slot(mem, 15, 0, Positional) == Some(33) && mem[33 := Combine(LessThan, a, 0)] == Amp2Mem(a, b, l)
  {
    var mem := Amp2Mem(a, b, 0);
    assert Load(mem, 13, 0, Positional) == Some(a);
    assert Load(mem, 14, 0, Immediate) == Some(0);
    assert Slot(mem, 15, 0, Positional) == Some(33);
    assert mem[33 := Combine(LessThan, a, 0)] == Amp2Mem(a, b, l);
    FetchEncoded(Basic, Machine(mem, 12, 0), Instruction(LessThan, Positional, Immediate, Positional));
  }

  /** `1007,31,0,33`: whether the shifted phase is negative. */
  lemma Amp2Compares(a: int, b: int, l: int, inputs: seq<int>, fuel: nat)
    requires |inputs| == 2
    requires l == if a < 0 then 1 else 0
    ensures Run(Basic, Machine(Amp2Mem(a, b, 0), 12, 0), inputs, 2, [], fuel + 1) == Run(Basic, Machine(Amp2Mem(a, b, l), 16, 0), inputs, 2, [], fuel)
  {
    Amp2ComparesDecodes(a, b, l);
    RunCombine(Basic, Machine(Amp2Mem(a, b, 0), 12, 0), inputs, 2, [], fuel + 1, Instruction(LessThan, Positional, Immediate, Positional), a, 0, 33);
  }

  lemma Amp2WeighsDecodes(a: int, b: int, c: int, r: int)
    requires r == c * 7
    ensures var mem := Amp2Mem(a, b, c);
      && Fetch(Basic, Machine(mem, 16, 0)) == Some(Instruction(Multiply, Positional, Immediate, Positional))
      && Load(mem, 17, 0, Positional) == Some(c) && Load(mem, 18, 0, Immediate) == Some(7) && Slot(mem, 19, 0, Positional) == Some(33) && mem[33 := Combine(Multiply, c, 7)] == Amp2Mem(a, b, r)
  {
    var mem := Amp2Mem(a, b, c);
    assert Load(mem, 17, 0, Positional) == Some(c);
    assert Load(mem, 18, 0, Immediate) == Some(7);
    assert Slot(mem, 19, 0, Positional) == Some(33);
    assert mem[33 := Combine(Multiply, c, 7)] == Amp2Mem(a, b, r);
    FetchEncoded(Basic, Machine(mem, 16, 0), Instruction(Multiply, Positional, Immediate, Positional));
  }

  /** `1002,33,7,33`: that comparison times seven. */
  lemma Amp2Weighs(a: int, b: int, c: int, r: int, inputs: seq<int>, fuel: nat)
    requires |inputs| == 2 && r == c * 7
    ensures Run(Basic, Machine(Amp2Mem(a, b, c), 16, 0), inputs, 2, [], fuel + 1) == Run(Basic, Machine(Amp2Mem(a, b, r), 20, 0), inputs, 2, [], fuel)
  {
    Amp2WeighsDecodes(a, b, c, r);
    RunCombine(Basic, Machine(Amp2Mem(a, b, c), 16, 0), inputs, 2, [], fuel + 1, Instruction(Multiply, Positional, Immediate, Positional), c, 7, 33);
  }

  lemma Amp2CorrectsDecodes(a: int, b: int, c: int, r: int)
    requires r == c + a
    ensures var mem := Amp2Mem(a, b, c);
      && Fetch(Basic, Machine(mem, 20, 0)) == Some(Instruction(Sum, Positional, Positional, Positional))
      && Load(mem, 21, 0, Positional) == Some(c) && Load(mem, 22, 0, Positional) == Some(a) && Slot(mem, 23, 0, Positional) == Some(31) && mem[31 := Combine(Sum, c, a)] == Amp2Mem(r, b, c)
  {
    var mem := Amp2Mem(a, b, c);
    assert Load(mem, 21, 0, Positional) == Some(c);
    assert Load(mem, 22, 0, Positional) == Some(a);
    assert Slot(mem, 23, 0, Positional) == Some(31);
    assert mem[31 := Combine(Sum, c, a)] == Amp2Mem(r, b, c);
    FetchEncoded(Basic, Machine(mem, 20, 0), Instruction(Sum, Positional, Positional, Positional));
  }

  /** `1,33,31,31`: the weighted comparison added to the shifted phase. */
  lemma Amp2Corrects(a: int, b: int, c: int, r: int, inputs: seq<int>, fuel: nat)
    requires |inputs| == 2 && r == c + a
    ensures Run(Basic, Machine(Amp2Mem(a, b, c), 20, 0), inputs, 2, [], fuel + 1) == Run(Basic, Machine(Amp2Mem(r, b, c), 24, 0), inputs, 2, [], fuel)
  {
    Amp2CorrectsDecodes(a, b, c, r);
    RunCombine(Basic, Machine(Amp2Mem(a, b, c), 20, 0), inputs, 2, [], fuel + 1, Instruction(Sum, Positional, Positional, Positional), c, a, 31);
  }

  lemma Amp2AddsSignalDecodes(a: int, b: int, c: int, r: int)
    requires r == b + a
    ensures var mem := Amp2Mem(a, b, c);
      && Fetch(Basic, Machine(mem, 24, 0)) == Some(Instruction(Sum, Positional, Positional, Positional))
      && Load(mem, 25, 0, Positional) == Some(b) && Load(mem, 26, 0, Positional) == Some(a) && Slot(mem, 27, 0, Positional) == Some(31) && mem[31 := Combine(Sum, b, a)] == Amp2Mem(r, b, c)
  {
    var mem := Amp2Mem(a, b, c);
    assert Load(mem, 25, 0, Positional) == Some(b);
    assert Load(mem, 26, 0, Positional) == Some(a);
    assert Slot(mem, 27, 0, Positional) == Some(31);
    assert mem[31 := Combine(Sum, b, a)] == Amp2Mem(r, b, c);
    FetchEncoded(Basic, Machine(mem, 24, 0), Instruction(Sum, Positional, Positional, Positional));
  }

  /** `1,32,31,31`: the scaled signal added to the corrected phase. */
  lemma Amp2AddsSignal(a: int, b: int, c: int, r: int, inputs: seq<int>, fuel: nat)
    requires |inputs| == 2 && r == b + a
    ensures Run(Basic, Machine(Amp2Mem(a, b, c), 24, 0), inputs, 2, [], fuel + 1) == Run(Basic, Machine(Amp2Mem(r, b, c), 28, 0), inputs, 2, [], fuel)
  {
    Amp2AddsSignalDecodes(a, b, c, r);
    RunCombine(Basic, Machine(Amp2Mem(a, b, c), 24, 0), inputs, 2, [], fuel + 1, Instruction(Sum, Positional, Positional, Positional), b, a, 31);
  }

  lemma Amp2Writes(a: int, b: int, c: int, inputs: seq<int>, fuel: nat)
    requires |inputs| == 2
    ensures Run(Basic, Machine(Amp2Mem(a, b, c), 28, 0), inputs, 2, [], fuel + 1) == Run(Basic, Machine(Amp2Mem(a, b, c), 30, 0), inputs, 2, [a], fuel)
  {
    var m := Machine(Amp2Mem(a, b, c), 28, 0);
    var ins := Instruction(Output, Positional, Positional, Positional);
    assert Load(m.mem, 29, 0, Positional) == Some(a);
    FetchEncoded(Basic, m, ins);
    RunOutput(Basic, m, inputs, 2, [], fuel + 1, ins, a);
    assert [] + [a] == [a];
    assert Machine(m.mem, m.ip + 2, m.base) == Machine(Amp2Mem(a, b, c), 30, 0);
  }

  lemma Amp2Stops(a: int, b: int, c: int, inputs: seq<int>, fuel: nat)
    requires |inputs| == 2
    ensures Run(Basic, Machine(Amp2Mem(a, b, c), 30, 0), inputs, 2, [a], fuel + 1) == Trace(Halted, Machine(Amp2Mem(a, b, c), 30, 0), 2, [a])
  {
    var m := Machine(Amp2Mem(a, b, c), 30, 0);
    var ins := Instruction(Stop, Positional, Positional, Positional);
    FetchEncoded(Basic, m, ins);
    RunStop(Basic, m, inputs, 2, [a], fuel + 1, ins);
  }

  /** Reading the phase and the signal, then scaling the signal by ten. */
  lemma Amp2Front(p: int, x: int, b: int, spare: nat)
    requires b == x * 10
    ensures Run(Basic, Boot(AmpProgram2), [p, x], 0, [], spare + 3)
         == Run(Basic, Machine(Amp2Mem(p, b, 0), 8, 0), [p, x], 2, [], spare)
  {
    Amp2ReadsPhase(p, x, spare + 2);
    Amp2ReadsSignal(p, p, x, spare + 1);
    Amp2Scales(p, x, b, [p, x], spare);
  }

  /** Shifting the phase down by two and computing 7 when it went negative, 0 otherwise. */
  lemma Amp2Middle(a: int, b: int, a': int, l: int, w: int, inputs: seq<int>, spare: nat)
    requires |inputs| == 2 && a' == a + -2 && l == (if a' < 0 then 1 else 0) && w == l * 7
    ensures Run(Basic, Machine(Amp2Mem(a, b, 0), 8, 0), inputs, 2, [], spare + 3)
         == Run(Basic, Machine(Amp2Mem(a', b, w), 20, 0), inputs, 2, [], spare)
  {
    Amp2Shifts(a, b, a', inputs, spare + 2);
    Amp2Compares(a', b, l, inputs, spare + 1);
    Amp2Weighs(a', b, l, w, inputs, spare);
  }

  /** Adding the correction and the scaled signal to the shifted phase. */
  lemma Amp2Sums(a: int, b: int, c: int, d: int, e: int, inputs: seq<int>, spare: nat)
    requires |inputs| == 2 && d == c + a && e == b + d
    ensures Run(Basic, Machine(Amp2Mem(a, b, c), 20, 0), inputs, 2, [], spare + 2)
         == Run(Basic, Machine(Amp2Mem(e, b, c), 28, 0), inputs, 2, [], spare)
  {
    Amp2Corrects(a, b, c, d, inputs, spare + 1);
    Amp2AddsSignal(d, b, c, e, inputs, spare);
  }

  lemma Amp2Back(a: int, b: int, c: int, inputs: seq<int>, spare: nat)
    requires |inputs| == 2
    ensures Run(Basic, Machine(Amp2Mem(a, b, c), 28, 0), inputs, 2, [], spare + 2) == Trace(Halted, Machine(Amp2Mem(a, b, c), 30, 0), 2, [a])
  {
    Amp2Writes(a, b, c, inputs, spare + 1);
    Amp2Stops(a, b, c, inputs, spare);
  }

  /** The phase correction the second program applies: 0, 1, 2, 3, 4 become 5, 6, 0, 1, 2. */
  function Amp2Shift(p: int): int { if p < 2 then p + 5 else p - 2 }

  /** The whole run of the second program, with the intermediate values named. */
  lemma Amp2Runs(p: int, x: int, b: int, a': int, l: int, w: int, e: int, spare: nat)
    requires b == x * 10 && a' == p + -2 && l == (if a' < 0 then 1 else 0) && w == l * 7 && e == b + (w + a')
    ensures Run(Basic, Boot(AmpProgram2), [p, x], 0, [], spare + 10) == Trace(Halted, Machine(Amp2Mem(e, b, w), 30, 0), 2, [e])
  {
    Amp2Front(p, x, b, spare + 7);
    Amp2Middle(p, b, a', l, w, [p, x], spare + 4);
    Amp2Sums(a', b, w, w + a', e, [p, x], spare + 2);
    Amp2Back(e, b, w, [p, x], spare);
  }

  /** One amplifier running the second example program turns phase p and signal x into 10x plus the shifted phase. */
  lemma Amp2Stage(p: int, x: int, spare: nat)
    ensures Ver3Of(Run(Basic, Boot(AmpProgram2), [p, x], 0, [], spare + 10), x) == Ver3Result(Returned(0), 10 * x + Amp2Shift(p))
  {
    var b, a', l := x * 10, p + -2, if p + -2 < 0 then 1 else 0;
    var e := b + (l * 7 + a');
    assert e == 10 * x + Amp2Shift(p);
    assert Ver3Of(Trace(Halted, Machine(Amp2Mem(e, b, l * 7), 30, 0), 2, [e]), x) == Ver3Result(Returned(0), e);
    Amp2Runs(p, x, b, a', l, l * 7, e, spare);
  }

  /** What an amplifier running the second example program outputs for phase p and signal x. */
  function Amp2Law(p: int, x: int): int { 10 * x + Amp2Shift(p) }

  /** Every amplifier running program 2 computes the same function of its phase and signal. */
  lemma Amp2Stages(spare: nat)
    ensures forall p, x :: Ver3Of(Run(Basic, Boot(AmpProgram2), [p, x], 0, [], spare + 10), x) == Ver3Result(Returned(0), Amp2Law(p, x))
  {
    forall p, x ensures Ver3Of(Run(Basic, Boot(AmpProgram2), [p, x], 0, [], spare + 10), x) == Ver3Result(Returned(0), 10 * x + Amp2Shift(p)) {
      Amp2Stage(p, x, spare);
    }
  }

  /** The second test of `phase_setter`: phases 1, 0, 4, 3, 2 give 65210. */
  lemma PhaseSetterSecondExample(spare: nat)
    ensures Chain(AmpProgram2, [1, 0, 4, 3, 2], 0, 0, spare + 10) == Returned(65210)
  {
    Amp2Stages(spare);
    ChainComputes(AmpProgram2, [1, 0, 4, 3, 2], 0, 0, spare + 10, Amp2Law);
    assert Fold(Amp2Law, [1, 0, 4, 3, 2], 0, 0) == 65210;
  }
}
