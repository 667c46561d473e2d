/**
 * Day 5: `computer_ver2`, the first machine with the full decoder. Its Input
 * instruction reads a line from standard input and parses it; the model
 * takes the lines already parsed, as a sequence, and treats running out of
 * them like the failed parse the source unwraps (a panic). It returns the
 * last value output, or 0 when nothing was output.
 */
module Diagnostic {
  import opened Outcomes
  import opened Intcode

  /** What `computer_ver2` returns after a run that ended as the trace says. */
  function Ver2Outcome(t: Trace): (r: Outcome)
    ensures r.Returned? <==> t.status == Halted
    ensures r.Returned? ==> (t.outputs == [] ==> r.value == 0) && (t.outputs != [] ==> r.value == t.outputs[|t.outputs| - 1])
    ensures r.Panicked? <==> t.status in {AwaitingInput, Faulted}
    ensures r.Exhausted? <==> t.status == OutOfFuel
  {
    match t.status
    case Halted => Returned(LastOr(t.outputs, 0))
    case OutOfFuel => Exhausted
    case _ => Panicked
  }

  /** `computer_ver2`: runs the program with the given standard input lines. */
  method ComputerVer2(program: seq<int>, stdin: seq<int>, fuel: nat) returns (r: Outcome)
    ensures r == Ver2Outcome(Run(Basic, Boot(program), stdin, 0, [], fuel))
  {
    var t := Execute(Basic, program, stdin, fuel);
    r := Ver2Outcome(t);
  }

  /** The echo program: read a value, write it back, stop. */
  const Echo: seq<int> := [3, 0, 4, 0, 99]

  lemma EchoReads(v: int, fuel: nat)
    ensures Run(Basic, Boot(Echo), [v], 0, [], fuel + 1) == Run(Basic, Machine([v, 0, 4, 0, 99], 2, 0), [v], 1, [], fuel)
  {
    var m := Boot(Echo);
    var ins := Instruction(Input, Positional, Positional, Positional);
    assert Slot(m.mem, 1, 0, Positional) == Some(0);
    assert m.mem[0 := v] == [v, 0, 4, 0, 99];
    FetchEncoded(Basic, m, ins);
    RunInput(Basic, m, [v], 0, [], fuel + 1, ins, 0);
  }

  lemma EchoWrites(v: int, fuel: nat)
    ensures Run(Basic, Machine([v, 0, 4, 0, 99], 2, 0), [v], 1, [], fuel + 1)
         == Run(Basic, Machine([v, 0, 4, 0, 99], 4, 0), [v], 1, [v], fuel)
  {
    var m := Machine([v, 0, 4, 0, 99], 2, 0);
    var ins := Instruction(Output, Positional, Positional, Positional);
    assert Load(m.mem, 3, 0, Positional) == Some(v);
    FetchEncoded(Basic, m, ins);
    RunOutput(Basic, m, [v], 1, [], fuel + 1, ins, v);
    assert [] + [v] == [v];
    assert Machine(m.mem, m.ip + 2, m.base) == Machine([v, 0, 4, 0, 99], 4, 0);
  }

  lemma EchoStops(v: int, fuel: nat)
    ensures Run(Basic, Machine([v, 0, 4, 0, 99], 4, 0), [v], 1, [v], fuel + 1) == Trace(Halted, Machine([v, 0, 4, 0, 99], 4, 0), 1, [v])
  {
    var m := Machine([v, 0, 4, 0, 99], 4, 0);
    var ins := Instruction(Stop, Positional, Positional, Positional);
    FetchEncoded(Basic, m, ins);
    RunStop(Basic, m, [v], 1, [v], fuel + 1, ins);
  }

  /** The echo program returns the value it was given. */
  lemma EchoOutputsItsInput(v: int, spare: nat)
    ensures Ver2Outcome(Run(Basic, Boot(Echo), [v], 0, [], spare + 3)) == Returned(v)
  {
    EchoReads(v, spare + 2);
    EchoWrites(v, spare + 1);
    EchoStops(v, spare);
  }

  /** With no input line to read, the echo program panics at its first instruction. */
  lemma EchoWithoutInputPanics(fuel: nat)
    requires fuel >= 1
    ensures Ver2Outcome(Run(Basic, Boot(Echo), [], 0, [], fuel)) == Panicked
  {
    var m := Boot(Echo);
    assert Slot(m.mem, 1, 0, Positional) == Some(0);
    FetchEncoded(Basic, m, Instruction(Input, Positional, Positional, Positional));
    RunUnfold(Basic, m, [], 0, [], fuel, Starved);
  }

  /** The comparison program: output 1 when the input equals 8, and 0 otherwise. */
  const EqualsEight: seq<int> := [3, 9, 8, 9, 10, 9, 4, 9, 99, -1, 8]

  /** The memory of the comparison program once its input `v` is stored. */
  function EqualsEightMem(v: int): seq<int> { [3, 9, 8, 9, 10, 9, 4, 9, 99, v, 8] }

  lemma EqualsEightReads(v: int, fuel: nat)
    ensures Run(Basic, Boot(EqualsEight), [v], 0, [], fuel + 1) == Run(Basic, Machine(EqualsEightMem(v), 2, 0), [v], 1, [], fuel)
  {
    var m := Boot(EqualsEight);
    var ins := Instruction(Input, Positional, Positional, Positional);
    assert Slot(m.mem, 1, 0, Positional) == Some(9);
    assert m.mem[9 := v] == EqualsEightMem(v);
    FetchEncoded(Basic, m, ins);
    RunInput(Basic, m, [v], 0, [], fuel + 1, ins, 9);
  }

  lemma EqualsEightTests(v: int, b: int, fuel: nat)
    requires b == if v == 8 then 1 else 0
    ensures Run(Basic, Machine(EqualsEightMem(v), 2, 0), [v], 1, [], fuel + 1)
         == Run(Basic, Machine(EqualsEightMem(b), 6, 0), [v], 1, [], fuel)
  {
    var m := Machine(EqualsEightMem(v), 2, 0);
    var ins := Instruction(Equals, Positional, Positional, Positional);
    assert Load(m.mem, 3, 0, Positional) == Some(v);
    assert Load(m.mem, 4, 0, Positional) == Some(8);
    assert Slot(m.mem, 5, 0, Positional) == Some(9);
    assert m.mem[9 := Combine(Equals, v, 8)] == EqualsEightMem(b);
    FetchEncoded(Basic, m, ins);
    RunCombine(Basic, m, [v], 1, [], fuel + 1, ins, v, 8, 9);
  }

  lemma EqualsEightWrites(b: int, v: int, fuel: nat)
    ensures Run(Basic, Machine(EqualsEightMem(b), 6, 0), [v], 1, [], fuel + 1)
         == Run(Basic, Machine(EqualsEightMem(b), 8, 0), [v], 1, [b], fuel)
  {
    var m := Machine(EqualsEightMem(b), 6, 0);
    var ins := Instruction(Output, Positional, Positional, Positional);
    assert Load(m.mem, 7, 0, Positional) == Some(b);
    FetchEncoded(Basic, m, ins);
    RunOutput(Basic, m, [v], 1, [], fuel + 1, ins, b);
    assert [] + [b] == [b];
    assert Machine(m.mem, m.ip + 2, m.base) == Machine(EqualsEightMem(b), 8, 0);
  }

  lemma EqualsEightStops(b: int, v: int, fuel: nat)
    ensures Run(Basic, Machine(EqualsEightMem(b), 8, 0), [v], 1, [b], fuel + 1) == Trace(Halted, Machine(EqualsEightMem(b), 8, 0), 1, [b])
  {
    var m := Machine(EqualsEightMem(b), 8, 0);
    var ins := Instruction(Stop, Positional, Positional, Positional);
    FetchEncoded(Basic, m, ins);
    RunStop(Basic, m, [v], 1, [b], fuel + 1, ins);
  }

  /** The comparison program's whole run: four instructions, one input taken, one value output. */
  lemma EqualsEightRuns(v: int, b: int, spare: nat)
    requires b == if v == 8 then 1 else 0
    ensures Run(Basic, Boot(EqualsEight), [v], 0, [], spare + 4) == Trace(Halted, Machine(EqualsEightMem(b), 8, 0), 1, [b])
  {
    EqualsEightReads(v, spare + 3);
    EqualsEightTests(v, b, spare + 2);
    EqualsEightWrites(b, v, spare + 1);
    EqualsEightStops(b, v, spare);
  }

  /** The comparison program returns 1 for the input 8 and 0 for any other input. */
  lemma EqualsEightCompares(v: int, spare: nat)
    ensures Ver2Outcome(Run(Basic, Boot(EqualsEight), [v], 0, [], spare + 4)) == Returned(if v == 8 then 1 else 0)
  {
    EqualsEightRuns(v, if v == 8 then 1 else 0, spare);
  }
}
