/**
 * Day 9: `computer_ver5`, the machine with relative mode and a relative base.
 * Its memory is the program followed by 16000 zero words; its inputs and
 * outputs go through channels, modelled as for `computer_ver4`.
 */
module RelativeVm {
  import opened Outcomes
  import opened Intcode

  /** A run of `n` zero words. */
  function Zeros(n: nat): (z: seq<int>)
    ensures |z| == n && forall i | 0 <= i < n :: z[i] == 0
  {
    seq(n, i => 0)
  }

  /** The number of zero words `computer_ver5` appends to the program. */
  const Headroom: nat := 16000

  /** The memory `computer_ver5` starts with: the program, then the zero words. */
  function Ver5Memory(program: seq<int>): (mem: seq<int>)
    ensures |mem| == |program| + Headroom
    ensures forall i | 0 <= i < |program| :: mem[i] == program[i]
    ensures forall i | |program| <= i < |mem| :: mem[i] == 0
  {
    program + Zeros(Headroom)
  }

  /** `computer_ver5`: runs the program on the values received; returns its result and what it delivered. */
  method ComputerVer5(program: seq<int>, received: seq<int>, consumerGone: bool, fuel: nat) returns (r: Outcome, sent: seq<int>)
    ensures r == ChannelOutcome(Run(WithRelative, Boot(Ver5Memory(program)), received, 0, [], fuel), consumerGone)
    ensures !consumerGone ==> sent == Run(WithRelative, Boot(Ver5Memory(program)), received, 0, [], fuel).outputs
    ensures consumerGone ==> sent == []
  {
    var vec := program + Zeros(Headroom);
    var t := Execute(WithRelative, vec, received, fuel);
    r := ChannelOutcome(t, consumerGone);
    sent := if consumerGone then [] else t.outputs;
  }

  /*
   * The sample program, which outputs a copy of itself. Each pass of its loop
   * raises the relative base by one, outputs the word just below the base,
   * counts the pass in cell 100, sets cell 101 once the count reaches 16 and
   * jumps back to the start while cell 101 is still 0.
   */

  const Quine: seq<int> := [109, 1, 204, -1, 1001, 100, 1, 100, 1008, 100, 16, 101, 1006, 101, 0, 99]

  /** A memory of the size `computer_ver5` gives the quine, holding the quine's code in its first sixteen words. */
  predicate QuineCode(mem: seq<int>)
  {
    |mem| == |Quine| + Headroom && forall i {:trigger Quine[i]} | 0 <= i < |Quine| :: mem[i] == Quine[i]
  }

  /** Writing beyond the code leaves the code in place. */
  lemma QuineCodeKept(mem: seq<int>, i: int, v: int)
    requires QuineCode(mem) && |Quine| <= i < |mem|
    ensures QuineCode(mem[i := v])
  {
  }

  /** The memory the quine boots with holds its code, and zero in cells 100 and 101. */
  lemma QuineBoots()
    ensures QuineCode(Ver5Memory(Quine)) && Ver5Memory(Quine)[100] == 0 && Ver5Memory(Quine)[101] == 0
    ensures Ver5Memory(Quine)[..|Quine|] == Quine
  {
  }

  /** Writing a cell the value it already holds changes nothing. */
  lemma UpdateSame(s: seq<int>, i: nat)
    requires i < |s|
    ensures s[i := s[i]] == s
  {
  }

  /** A write beyond a prefix leaves the prefix as it was. */
  lemma PrefixKept(s: seq<int>, i: nat, v: int, n: nat)
    requires n <= i < |s|
    ensures s[i := v][..n] == s[..n]
  {
  }

  /** A prefix one word longer is the prefix with that word appended. */
  lemma PrefixGrows(s: seq<int>, k: nat)
    requires k < |s|
    ensures s[..k] + [s[k]] == s[..k + 1]
  {
  }

  /** A second write to a cell overrides the first. */
  lemma UpdateTwice(s: seq<int>, i: nat, a: int, b: int)
    requires i < |s|
    ensures s[i := a][i := b] == s[i := b]
  {
  }

  lemma QuineRaisesBaseDecodes(mem: seq<int>, k: int)
    requires QuineCode(mem)
    ensures Fetch(WithRelative, Machine(mem, 0, k)) == Some(Instruction(RelativeBaseOffset, Immediate, Positional, Positional))
    ensures Load(mem, 1, k, Immediate) == Some(1)
  {
    assert mem[0] == Quine[0] && mem[1] == Quine[1];
    FetchEncoded(WithRelative, Machine(mem, 0, k), Instruction(RelativeBaseOffset, Immediate, Positional, Positional));
  }

  /** `109,1`: raise the relative base by one. */
  lemma QuineRaisesBase(mem: seq<int>, k: int, b: int, inputs: seq<int>, outputs: seq<int>, fuel: nat)
    requires QuineCode(mem) && b == k + 1
    ensures Run(WithRelative, Machine(mem, 0, k), inputs, 0, outputs, fuel + 1)
         == Run(WithRelative, Machine(mem, 2, b), inputs, 0, outputs, fuel)
  {
    QuineRaisesBaseDecodes(mem, k);
    RunBaseOffset(WithRelative, Machine(mem, 0, k), inputs, 0, outputs, fuel + 1,
                  Instruction(RelativeBaseOffset, Immediate, Positional, Positional), 1);
  }

  lemma QuineWritesWordDecodes(mem: seq<int>, k: int, b: int)
    requires QuineCode(mem) && 0 <= k < |Quine| && b == k + 1
    ensures Fetch(WithRelative, Machine(mem, 2, b)) == Some(Instruction(Output, Relative, Positional, Positional))
    ensures Load(mem, 3, b, Relative) == Some(mem[k])
  {
    assert mem[2] == Quine[2] && mem[3] == Quine[3];
    FetchEncoded(WithRelative, Machine(mem, 2, b), Instruction(Output, Relative, Positional, Positional));
  }

  /** `204,-1`: output the word just below the relative base. */
  lemma QuineWritesWord(mem: seq<int>, k: int, b: int, inputs: seq<int>, outputs: seq<int>, fuel: nat)
    requires QuineCode(mem) && 0 <= k < |Quine| && b == k + 1
    ensures Run(WithRelative, Machine(mem, 2, b), inputs, 0, outputs, fuel + 1)
         == Run(WithRelative, Machine(mem, 4, b), inputs, 0, outputs + [mem[k]], fuel)
  {
    QuineWritesWordDecodes(mem, k, b);
    RunOutput(WithRelative, Machine(mem, 2, b), inputs, 0, outputs, fuel + 1,
              Instruction(Output, Relative, Positional, Positional), mem[k]);
  }

  lemma QuineCountsDecodes(mem: seq<int>, k: int, b: int)
    requires QuineCode(mem) && mem[100] == k && b == k + 1
    ensures Fetch(WithRelative, Machine(mem, 4, b)) == Some(Instruction(Sum, Positional, Immediate, Positional))
    ensures Load(mem, 5, b, Positional) == Some(k) && Load(mem, 6, b, Immediate) == Some(1)
    ensures Slot(mem, 7, b, Positional) == Some(100) && Combine(Sum, k, 1) == b
  {
    assert mem[4] == Quine[4] && mem[5] == Quine[5] && mem[6] == Quine[6] && mem[7] == Quine[7];
    FetchEncoded(WithRelative, Machine(mem, 4, b), Instruction(Sum, Positional, Immediate, Positional));
  }

  /** `1001,100,1,100`: add one to the pass counter in cell 100. */
  lemma QuineCounts(mem: seq<int>, k: int, b: int, inputs: seq<int>, outputs: seq<int>, fuel: nat)
    requires QuineCode(mem) && mem[100] == k && b == k + 1
    ensures Run(WithRelative, Machine(mem, 4, b), inputs, 0, outputs, fuel + 1)
         == Run(WithRelative, Machine(mem[100 := b], 8, b), inputs, 0, outputs, fuel)
  {
    QuineCountsDecodes(mem, k, b);
    RunCombine(WithRelative, Machine(mem, 4, b), inputs, 0, outputs, fuel + 1,
               Instruction(Sum, Positional, Immediate, Positional), k, 1, 100);
  }

  lemma QuineTestsDecodes(mem: seq<int>, c: int, flag: int)
    requires QuineCode(mem) && mem[100] == c && flag == (if c == 16 then 1 else 0)
    ensures Fetch(WithRelative, Machine(mem, 8, c)) == Some(Instruction(Equals, Positional, Immediate, Positional))
    ensures Load(mem, 9, c, Positional) == Some(c) && Load(mem, 10, c, Immediate) == Some(16)
    ensures Slot(mem, 11, c, Positional) == Some(101) && Combine(Equals, c, 16) == flag
  {
    assert mem[8] == Quine[8] && mem[9] == Quine[9] && mem[10] == Quine[10] && mem[11] == Quine[11];
    FetchEncoded(WithRelative, Machine(mem, 8, c), Instruction(Equals, Positional, Immediate, Positional));
  }

  /** `1008,100,16,101`: set cell 101 to whether the counter has reached sixteen. */
  lemma QuineTests(mem: seq<int>, c: int, flag: int, inputs: seq<int>, outputs: seq<int>, fuel: nat)
    requires QuineCode(mem) && mem[100] == c && flag == (if c == 16 then 1 else 0)
    ensures Run(WithRelative, Machine(mem, 8, c), inputs, 0, outputs, fuel + 1)
         == Run(WithRelative, Machine(mem[101 := flag], 12, c), inputs, 0, outputs, fuel)
  {
    QuineTestsDecodes(mem, c, flag);
    RunCombine(WithRelative, Machine(mem, 8, c), inputs, 0, outputs, fuel + 1,
               Instruction(Equals, Positional, Immediate, Positional), c, 16, 101);
  }

  lemma QuineBranchesDecodes(mem: seq<int>, c: int, flag: int)
    requires QuineCode(mem) && mem[101] == flag
    ensures Fetch(WithRelative, Machine(mem, 12, c)) == Some(Instruction(JumpIfFalse, Positional, Immediate, Positional))
    ensures Load(mem, 13, c, Positional) == Some(flag) && Load(mem, 14, c, Immediate) == Some(0)
  {
    assert mem[12] == Quine[12] && mem[13] == Quine[13] && mem[14] == Quine[14];
    FetchEncoded(WithRelative, Machine(mem, 12, c), Instruction(JumpIfFalse, Positional, Immediate, Positional));
  }

  /** `1006,101,0`: jump back to the start while cell 101 is zero. */
  lemma QuineBranches(mem: seq<int>, c: int, flag: int, target: int, inputs: seq<int>, outputs: seq<int>, fuel: nat)
    requires QuineCode(mem) && mem[101] == flag && target == (if flag == 0 then 0 else 15)
    ensures Run(WithRelative, Machine(mem, 12, c), inputs, 0, outputs, fuel + 1)
         == Run(WithRelative, Machine(mem, target, c), inputs, 0, outputs, fuel)
  {
    QuineBranchesDecodes(mem, c, flag);
    RunJump(WithRelative, Machine(mem, 12, c), inputs, 0, outputs, fuel + 1,
            Instruction(JumpIfFalse, Positional, Immediate, Positional), flag, 0);
  }

  /** `99`: stop. */
  lemma QuineStops(mem: seq<int>, c: int, inputs: seq<int>, outputs: seq<int>, fuel: nat)
    requires QuineCode(mem)
    ensures Run(WithRelative, Machine(mem, 15, c), inputs, 0, outputs, fuel + 1)
         == Trace(Halted, Machine(mem, 15, c), 0, outputs)
  {
    var ins := Instruction(Stop, Positional, Positional, Positional);
    assert mem[15] == Quine[15];
    FetchEncoded(WithRelative, Machine(mem, 15, c), ins);
    RunStop(WithRelative, Machine(mem, 15, c), inputs, 0, outputs, fuel + 1, ins);
  }

  /** The first half of pass k: raise the base, output word k, count the pass. */
  lemma QuinePassStart(mem: seq<int>, k: int, inputs: seq<int>, outputs: seq<int>, next: seq<int>, spare: nat)
    requires QuineCode(mem) && mem[100] == k && 0 <= k < |Quine| && next == outputs + [mem[k]]
    ensures Run(WithRelative, Machine(mem, 0, k), inputs, 0, outputs, spare + 3)
         == Run(WithRelative, Machine(mem[100 := k + 1], 8, k + 1), inputs, 0, next, spare)
  {
    QuineRaisesBase(mem, k, k + 1, inputs, outputs, spare + 2);
    QuineWritesWord(mem, k, k + 1, inputs, outputs, spare + 1);
    QuineCounts(mem, k, k + 1, inputs, next, spare);
  }

  /** The second half of a pass: test the counter, then jump back or fall through to the Stop. */
  lemma QuinePassEnd(mem: seq<int>, c: int, flag: int, target: int, inputs: seq<int>, outputs: seq<int>, spare: nat)
    requires QuineCode(mem) && mem[100] == c
    requires flag == (if c == 16 then 1 else 0) && target == (if flag == 0 then 0 else 15)
    ensures Run(WithRelative, Machine(mem, 8, c), inputs, 0, outputs, spare + 2)
         == Run(WithRelative, Machine(mem[101 := flag], target, c), inputs, 0, outputs, spare)
  {
    QuineTests(mem, c, flag, inputs, outputs, spare + 1);
    QuineCodeKept(mem, 101, flag);
    QuineBranches(mem[101 := flag], c, flag, target, inputs, outputs, spare);
  }

  /** A pass other than the last outputs word k and comes back to the start with the counter and base one higher. */
  lemma QuinePass(mem: seq<int>, k: int, inputs: seq<int>, outputs: seq<int>, next: seq<int>, spare: nat)
    requires QuineCode(mem) && mem[100] == k && mem[101] == 0 && 0 <= k < 15 && next == outputs + [mem[k]]
    ensures Run(WithRelative, Machine(mem, 0, k), inputs, 0, outputs, spare + 5)
         == Run(WithRelative, Machine(mem[100 := k + 1], 0, k + 1), inputs, 0, next, spare)
  {
    var counted := mem[100 := k + 1];
    QuinePassStart(mem, k, inputs, outputs, next, spare + 2);
    QuineCodeKept(mem, 100, k + 1);
    QuinePassEnd(counted, k + 1, 0, 0, inputs, next, spare);
    UpdateSame(counted, 101);
  }

  /** The last pass outputs the final word, sets the flag and stops. */
  lemma QuineLastPass(mem: seq<int>, inputs: seq<int>, outputs: seq<int>, next: seq<int>, spare: nat)
    requires QuineCode(mem) && mem[100] == 15 && next == outputs + [mem[15]]
    ensures Run(WithRelative, Machine(mem, 0, 15), inputs, 0, outputs, spare + 6)
         == Trace(Halted, Machine(mem[100 := 16][101 := 1], 15, 16), 0, next)
  {
    var counted := mem[100 := 16];
    QuinePassStart(mem, 15, inputs, outputs, next, spare + 3);
    QuineCodeKept(mem, 100, 16);
    QuinePassEnd(counted, 16, 1, 15, inputs, next, spare + 1);
    QuineCodeKept(counted, 101, 1);
    QuineStops(counted[101 := 1], 16, inputs, next, spare);
  }

  /** How the quine ends when its memory at the start of a pass is `mem`: halted at the Stop, with its code output. */
  ghost function QuineEnd(mem: seq<int>): Trace
    requires |mem| > 101
  {
    Trace(Halted, Machine(mem[100 := 16][101 := 1], 15, 16), 0, mem[..16])
  }

  /** Counting a pass changes neither how the quine ends nor the words output so far. */
  lemma QuineEndKept(mem: seq<int>, k: int)
    requires QuineCode(mem) && 0 <= k <= 16
    ensures QuineEnd(mem[100 := k]) == QuineEnd(mem)
    ensures mem[100 := k][..k] == mem[..k]
  {
    PrefixKept(mem, 100, k, k);
    PrefixKept(mem, 100, k, 16);
    UpdateTwice(mem, 100, k, 16);
  }

  /** A pass other than the last, with its first k words output, leads to the start of the next pass. */
  lemma QuinePassLeads(mem: seq<int>, k: int, inputs: seq<int>, rest: nat, fuel: nat, t: Trace)
    requires QuineCode(mem) && mem[100] == k && mem[101] == 0
    requires 0 <= k < 15 && fuel == rest + 5
    requires Run(WithRelative, Machine(mem[100 := k + 1], 0, k + 1), inputs, 0, mem[..k + 1], rest) == t
    ensures Run(WithRelative, Machine(mem, 0, k), inputs, 0, mem[..k], fuel) == t
  {
    PrefixGrows(mem, k);
    QuinePass(mem, k, inputs, mem[..k], mem[..k + 1], rest);
  }

  /** The last pass, with fifteen words output, halts with the whole code output. */
  lemma QuineLastPassEnds(mem: seq<int>, inputs: seq<int>, spare: nat, fuel: nat)
    requires QuineCode(mem) && mem[100] == 15 && fuel == spare + 6
    ensures Run(WithRelative, Machine(mem, 0, 15), inputs, 0, mem[..15], fuel) == QuineEnd(mem)
  {
    PrefixGrows(mem, 15);
    QuineLastPass(mem, inputs, mem[..15], mem[..16], spare);
  }

  /**
   * From the start of pass k, with the first k words of its code output, the
   * quine outputs the rest of its code and halts with the counter at sixteen
   * and the flag set.
   */
  lemma {:induction false} QuineFinishes(mem: seq<int>, k: int, inputs: seq<int>, spare: nat, fuel: nat)
    requires QuineCode(mem) && mem[100] == k && mem[101] == 0
    requires 0 <= k <= 15 && fuel == spare + 5 * (15 - k) + 6
    ensures Run(WithRelative, Machine(mem, 0, k), inputs, 0, mem[..k], fuel) == QuineEnd(mem)
    decreases 15 - k
  {
    if k < 15 {
      QuineCodeKept(mem, 100, k + 1);
      QuineFinishes(mem[100 := k + 1], k + 1, inputs, spare, fuel - 5);
      QuineEndKept(mem, k + 1);
      QuinePassLeads(mem, k, inputs, fuel - 5, fuel, QuineEnd(mem));
    } else {
      QuineLastPassEnds(mem, inputs, spare, fuel);
    }
  }

  /**
   * The day 9 sample: with its receiver listening, `computer_ver5` sends the
   * sixteen words of the program in order and returns 0.
   */
  lemma QuineOutputsItself(inputs: seq<int>, spare: nat)
    ensures Run(WithRelative, Boot(Ver5Memory(Quine)), inputs, 0, [], spare + 81).outputs == Quine
    ensures ChannelOutcome(Run(WithRelative, Boot(Ver5Memory(Quine)), inputs, 0, [], spare + 81), false) == Returned(0)
  {
    QuineBoots();
    assert Ver5Memory(Quine)[..0] == [];
    QuineFinishes(Ver5Memory(Quine), 0, inputs, spare, spare + 81);
  }
}
