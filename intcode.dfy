/**
 * The Intcode machine shared by days 5, 7, 9 and 13: the instruction decoder,
 * parameter resolution, one fetch-decode-execute step and a fuelled run.
 *
 * Two instruction sets appear in the repository. `Basic` (day 5 and day 7)
 * knows opcodes 1-8 and 99 and the positional and immediate modes; `Relative`
 * (day 9 and day 13) adds opcode 9 and the relative mode. Memory is a sequence
 * of unbounded integers; an access that Rust would reject (a negative address
 * cast to `usize`, an index past the end, a word the decoder cannot parse)
 * makes the step fault.
 */
module Intcode {
  import opened Outcomes
  import Text

  datatype Opcode =
    | Sum | Multiply | Input | Output | JumpIfTrue | JumpIfFalse | LessThan | Equals
    | RelativeBaseOffset | Stop

  datatype ParamMode = Positional | Immediate | Relative

  datatype Isa = Basic | WithRelative

  /** The number each opcode is written as. */
  function OpcodeValue(op: Opcode): nat
  {
    match op
    case Sum => 1
    case Multiply => 2
    case Input => 3
    case Output => 4
    case JumpIfTrue => 5
    case JumpIfFalse => 6
    case LessThan => 7
    case Equals => 8
    case RelativeBaseOffset => 9
    case Stop => 99
  }

  /** The digit each parameter mode is written as. */
  function ModeValue(mode: ParamMode): nat
  {
    match mode
    case Positional => 0
    case Immediate => 1
    case Relative => 2
  }

  /** The opcode belongs to the instruction set. */
  predicate HasOpcode(isa: Isa, op: Opcode) { op != RelativeBaseOffset || isa == WithRelative }

  /** The mode belongs to the instruction set. */
  predicate HasMode(isa: Isa, mode: ParamMode) { mode != Relative || isa == WithRelative }

  /** `Opcode::try_from(u8)`: the opcode a number denotes, if any. */
  function OpcodeFrom(isa: Isa, v: nat): (r: Option<Opcode>)
    ensures r.Some? <==> (1 <= v <= 8 || v == 99 || (v == 9 && isa == WithRelative))
    ensures r.Some? ==> OpcodeValue(r.value) == v && HasOpcode(isa, r.value)
  {
    match v
    case 1 => Some(Sum)
    case 2 => Some(Multiply)
    case 3 => Some(Input)
    case 4 => Some(Output)
    case 5 => Some(JumpIfTrue)
    case 6 => Some(JumpIfFalse)
    case 7 => Some(LessThan)
    case 8 => Some(Equals)
    case 9 => if isa == WithRelative then Some(RelativeBaseOffset) else None
    case 99 => Some(Stop)
    case _ => None
  }

  /** `ParamMode::try_from(u8)`: the mode a digit denotes, if any. */
  function ModeFrom(isa: Isa, d: nat): (r: Option<ParamMode>)
    ensures r.Some? <==> (d <= 1 || (d == 2 && isa == WithRelative))
    ensures r.Some? ==> ModeValue(r.value) == d && HasMode(isa, r.value)
  {
    match d
    case 0 => Some(Positional)
    case 1 => Some(Immediate)
    case 2 => if isa == WithRelative then Some(Relative) else None
    case _ => None
  }

  /** Every opcode of an instruction set is recognised by its number. */
  lemma OpcodeRoundTrip(isa: Isa, op: Opcode)
    requires HasOpcode(isa, op)
    ensures OpcodeFrom(isa, OpcodeValue(op)) == Some(op)
  {
  }

  /** Every mode of an instruction set is recognised by its digit. */
  lemma ModeRoundTrip(isa: Isa, mode: ParamMode)
    requires HasMode(isa, mode)
    ensures ModeFrom(isa, ModeValue(mode)) == Some(mode)
  {
  }

  /** A decoded instruction: the opcode and the modes of parameters 1, 2 and 3. */
  datatype Instruction = Instruction(op: Opcode, mode1: ParamMode, mode2: ParamMode, mode3: ParamMode)

  function Pow10(k: nat): (r: nat)
    ensures r >= 1
  {
    if k == 0 then 1 else 10 * Pow10(k - 1)
  }

  /** The number of decimal digits of `n`. */
  function NumDigits(n: nat): (r: nat)
    ensures r >= 1
  {
    if n < 10 then 1 else 1 + NumDigits(n / 10)
  }

  /** NumDigits counts the characters `to_string` writes. */
  lemma {:induction false} NumDigitsIsLength(n: nat)
    ensures NumDigits(n) == |Text.Natural(n)|
  {
    if n >= 10 {
      NumDigitsIsLength(n / 10);
    }
  }

  /** A number below 10^k has at most k digits. */
  lemma {:induction false} NumDigitsBound(n: nat, k: nat)
    requires k >= 1 && n < Pow10(k)
    ensures NumDigits(n) <= k
  {
    if n >= 10 {
      NumDigitsBound(n / 10, k - 1);
    }
  }

  /** The length of `format!("{:05}", w)` for a non-negative word: at least five characters. */
  function Width(w: nat): (r: nat)
    ensures r >= 5 && r >= NumDigits(w)
  {
    if NumDigits(w) < 5 then 5 else NumDigits(w)
  }

  /** The decimal digit of `w` with weight 10^k. */
  function Digit(w: nat, k: nat): (r: nat)
    ensures r < 10
  {
    if k == 0 then w % 10 else Digit(w / 10, k - 1)
  }

  /** The number the last k digits of `w` spell, that is `w` modulo 10^k. */
  function LowDigits(w: nat, k: nat): (r: nat)
    ensures r < Pow10(k)
  {
    if k == 0 then 0 else w % 10 + 10 * LowDigits(w / 10, k - 1)
  }

  /** All four parts decoded: the instruction, otherwise nothing. */
  function Assemble(op: Option<Opcode>, m1: Option<ParamMode>, m2: Option<ParamMode>, m3: Option<ParamMode>): Option<Instruction>
  {
    if op.Some? && m1.Some? && m2.Some? && m3.Some? then Some(Instruction(op.value, m1.value, m2.value, m3.value))
    else None
  }

  /**
   * `parse_instruction`. The word is padded to at least five characters; the
   * characters from index 3 on are parsed as a `u8` opcode and the characters
   * at indexes 2, 1 and 0 as the modes of parameters 1, 2 and 3. A negative
   * word puts '-' at index 0, which never parses as a mode.
   */
  function ParseInstruction(isa: Isa, w: int): (r: Option<Instruction>)
    ensures r.Some? ==> (HasOpcode(isa, r.value.op) && HasMode(isa, r.value.mode1)
                         && HasMode(isa, r.value.mode2) && HasMode(isa, r.value.mode3))
  {
    if w < 0 then None
    else
      var width := Width(w);
      var low := LowDigits(w, width - 3);
      if low > 255 then None
      else Assemble(OpcodeFrom(isa, low), ModeFrom(isa, Digit(w, width - 3)),
                    ModeFrom(isa, Digit(w, width - 2)), ModeFrom(isa, Digit(w, width - 1)))
  }

  /** A word below 100000 is padded to exactly five characters. */
  lemma FiveWide(w: nat)
    requires w < 100000
    ensures Width(w) == 5
  {
    assert Pow10(5) == 100000;
    NumDigitsBound(w, 5);
  }

  /** The last two digits of a word spell the word modulo 100. */
  lemma LastTwoDigits(w: nat)
    ensures LowDigits(w, 2) == w % 100
  {
    assert LowDigits(w / 10 / 10, 0) == 0;
    assert w / 10 / 10 == w / 100;
  }

  /** The hundreds, thousands and ten-thousands digits of a word below 100000. */
  lemma HighDigits(w: nat)
    requires w < 100000
    ensures Digit(w, 2) == (w / 100) % 10 && Digit(w, 3) == (w / 1000) % 10 && Digit(w, 4) == w / 10000
  {
    var w2 := w / 10 / 10;
    assert w2 == w / 100;
    assert Digit(w, 2) == Digit(w2, 0);
    assert w2 / 10 == w / 1000;
    assert Digit(w, 3) == Digit(w2 / 10, 0);
    assert w2 / 10 / 10 == w / 10000 < 10;
    assert Digit(w, 4) == Digit(w2 / 10 / 10, 0);
  }

  /**
   * For a word of at most five digits the decoder reads the opcode from the
   * last two digits and the three modes from the hundreds, thousands and
   * ten-thousands digits.
   */
  lemma ParseFiveDigits(isa: Isa, w: int)
    requires 0 <= w < 100000
    ensures ParseInstruction(isa, w) == Assemble(OpcodeFrom(isa, w % 100), ModeFrom(isa, (w / 100) % 10),
                                                 ModeFrom(isa, (w / 1000) % 10), ModeFrom(isa, w / 10000))
  {
    FiveWide(w);
    LastTwoDigits(w);
    HighDigits(w);
  }

  /** The word an instruction is written as. */
  function Encode(ins: Instruction): nat
  {
    OpcodeValue(ins.op) + 100 * ModeValue(ins.mode1) + 1000 * ModeValue(ins.mode2) + 10000 * ModeValue(ins.mode3)
  }

  /** Decoding an encoded instruction of the instruction set gives it back. */
  lemma ParseEncode(isa: Isa, ins: Instruction)
    requires HasOpcode(isa, ins.op) && HasMode(isa, ins.mode1) && HasMode(isa, ins.mode2) && HasMode(isa, ins.mode3)
    ensures ParseInstruction(isa, Encode(ins)) == Some(ins)
  {
    var o, a, b, c := OpcodeValue(ins.op), ModeValue(ins.mode1), ModeValue(ins.mode2), ModeValue(ins.mode3);
    var w := Encode(ins);
    assert w % 100 == o && w / 100 == a + 10 * b + 100 * c;
    assert (w / 100) % 10 == a;
    assert w / 1000 == b + 10 * c;
    assert (w / 1000) % 10 == b;
    assert w / 10000 == c;
    ParseFiveDigits(isa, w);
    OpcodeRoundTrip(isa, ins.op);
    ModeRoundTrip(isa, ins.mode1);
    ModeRoundTrip(isa, ins.mode2);
    ModeRoundTrip(isa, ins.mode3);
  }

  /** Day 5's multiply with an immediate second operand. */
  lemma ParseMultiplyImmediate()
    ensures ParseInstruction(Basic, 1002) == Some(Instruction(Multiply, Positional, Immediate, Positional))
  {
    ParseFiveDigits(Basic, 1002);
  }

  /** Relative-mode output is an error for the day 5 decoder and an instruction for the day 9 one. */
  lemma ParseRelativeMode()
    ensures ParseInstruction(Basic, 204) == None
    ensures ParseInstruction(WithRelative, 204) == Some(Instruction(Output, Relative, Positional, Positional))
  {
    ParseFiveDigits(Basic, 204);
    ParseFiveDigits(WithRelative, 204);
  }

  /** Opcode 9 exists only in the day 9 decoder. */
  lemma ParseBaseOffset()
    ensures ParseInstruction(Basic, 9) == None
    ensures ParseInstruction(WithRelative, 9) == Some(Instruction(RelativeBaseOffset, Positional, Positional, Positional))
  {
    FiveWide(9);
    assert LowDigits(9, 2) == 9 && Digit(9, 2) == 0 && Digit(9, 3) == 0 && Digit(9, 4) == 0;
  }

  /** Every negative word is rejected: its sign occupies the third mode's character. */
  lemma ParseNegative(isa: Isa, w: int)
    requires w < 0
    ensures ParseInstruction(isa, w) == None
  {
  }

  /**
   * A word of six or more digits is not reduced to its last five: 100001 has
   * opcode 001 and reads its third mode from the leading '1', and 100256 has
   * opcode 256, which does not fit in a `u8`.
   */
  lemma ParseWideWords()
    ensures ParseInstruction(Basic, 100001) == Some(Instruction(Sum, Positional, Positional, Immediate))
    ensures ParseInstruction(Basic, 100256) == None
  {
    assert NumDigits(100001) == 6 && Width(100001) == 6;
    assert LowDigits(100001, 3) == 1 && Digit(100001, 3) == 0 && Digit(100001, 4) == 0 && Digit(100001, 5) == 1;
    assert NumDigits(100256) == 6 && Width(100256) == 6;
    assert LowDigits(100256, 3) == 256;
  }

  /** An address as Rust's `as usize` then indexing accepts it: inside memory. */
  predicate InBounds(mem: seq<int>, a: int) { 0 <= a < |mem| }

  /** The address of the cell a parameter designates (`get_mut_param`), if it is inside memory. */
  function Slot(mem: seq<int>, index: int, base: int, mode: ParamMode): (r: Option<nat>)
    ensures r.Some? ==> r.value < |mem|
    ensures r.Some? <==> InBounds(mem, index) && match mode
      case Positional => InBounds(mem, mem[index])
      case Immediate => true
      case Relative => InBounds(mem, base + mem[index])
  {
    if !InBounds(mem, index) then None
    else
      var a := match mode
        case Positional => mem[index]
        case Immediate => index
        case Relative => base + mem[index];
      if InBounds(mem, a) then Some(a) else None
  }

  /** The value of a parameter (`get_param`), if every cell it reaches is inside memory. */
  function Load(mem: seq<int>, index: int, base: int, mode: ParamMode): (r: Option<int>)
  {
    if !InBounds(mem, index) then None
    else match mode
      case Positional => if InBounds(mem, mem[index]) then Some(mem[mem[index]]) else None
      case Immediate => Some(mem[index])
      case Relative => if InBounds(mem, base + mem[index]) then Some(mem[base + mem[index]]) else None
  }

  /** Reading a parameter reads exactly the cell that writing to it would write. */
  lemma LoadReadsSlot(mem: seq<int>, index: int, base: int, mode: ParamMode)
    ensures Load(mem, index, base, mode) == if Slot(mem, index, base, mode).Some? then Some(mem[Slot(mem, index, base, mode).value]) else None
  {
  }

  /** Positional mode follows the pointer, immediate mode takes the word itself, relative mode offsets by the base. */
  lemma LoadModes(mem: seq<int>, index: int, base: int)
    requires InBounds(mem, index)
    ensures Load(mem, index, base, Immediate) == Some(mem[index])
    ensures InBounds(mem, mem[index]) ==> Load(mem, index, base, Positional) == Some(mem[mem[index]])
    ensures !InBounds(mem, mem[index]) ==> Load(mem, index, base, Positional) == None
    ensures InBounds(mem, base + mem[index]) ==> Load(mem, index, base, Relative) == Some(mem[base + mem[index]])
    ensures Slot(mem, index, base, Immediate) == Some(index)
  {
  }

  /** The two unit tests of the parameter helpers: an immediate read, and a write through an immediate slot. */
  lemma ParamExamples()
    ensures Load([1, 2, 3, 4, 5, 6, 7, 8], 1, 0, Immediate) == Some(2)
    ensures Slot([1, 2, 3, 4, 5, 6, 7, 8], 1, 0, Immediate) == Some(1)
    ensures [1, 2, 3, 4, 5, 6, 7, 8][1 := 99][1] == 99
  {
  }

  /** The registers of a machine: memory, instruction pointer and relative base. */
  datatype Machine = Machine(mem: seq<int>, ip: int, base: int)

  /** What executing one instruction does. */
  datatype StepResult =
    | Next(next: Machine, consumed: bool, emitted: Option<int>)
    | Halt
    | Starved
    | Fault

  /** The instruction at the pointer, if the pointer is inside memory and the word decodes. */
  function Fetch(isa: Isa, m: Machine): Option<Instruction>
  {
    if InBounds(m.mem, m.ip) then ParseInstruction(isa, m.mem[m.ip]) else None
  }

  /** The value an arithmetic or comparison instruction stores. */
  function Combine(op: Opcode, a: int, b: int): int
  {
    match op
    case Sum => a + b
    case Multiply => a * b
    case LessThan => if a < b then 1 else 0
    case _ => if a == b then 1 else 0
  }

  /**
   * One pass of the interpreter loop. `input` is the value the next Input
   * instruction would receive, if one is available. The slot an Input writes
   * is resolved before the value is taken, as in the source.
   */
  function Step(isa: Isa, m: Machine, input: Option<int>): (r: StepResult)
    ensures r.Next? ==> |r.next.mem| == |m.mem|
    ensures r.Halt? <==> Fetch(isa, m).Some? && Fetch(isa, m).value.op == Stop
    ensures r.Next? ==> Fetch(isa, m).Some?
    ensures r.Next? && r.consumed ==> input.Some? && Fetch(isa, m).value.op == Input
    ensures r.Next? && r.emitted.Some? ==> Fetch(isa, m).value.op == Output
    ensures r.Starved? ==> input.None? && Fetch(isa, m).Some? && Fetch(isa, m).value.op == Input
  {
    match Fetch(isa, m)
    case None => Fault
    case Some(ins) =>
      var mem, ip, base := m.mem, m.ip, m.base;
      match ins.op
      case Stop => Halt
      case Input =>
        var s := Slot(mem, ip + 1, base, ins.mode1);
        if s.None? then Fault
        else if input.None? then Starved
        else Next(Machine(mem[s.value := input.value], ip + 2, base), true, None)
      case Output =>
        var a := Load(mem, ip + 1, base, ins.mode1);
        if a.None? then Fault else Next(Machine(mem, ip + 2, base), false, Some(a.value))
      case RelativeBaseOffset =>
        var a := Load(mem, ip + 1, base, ins.mode1);
        if a.None? then Fault else Next(Machine(mem, ip + 2, base + a.value), false, None)
      case JumpIfTrue =>
        var a, b := Load(mem, ip + 1, base, ins.mode1), Load(mem, ip + 2, base, ins.mode2);
        if a.None? || b.None? then Fault
        else Next(Machine(mem, if a.value != 0 then b.value else ip + 3, base), false, None)
      case JumpIfFalse =>
        var a, b := Load(mem, ip + 1, base, ins.mode1), Load(mem, ip + 2, base, ins.mode2);
        if a.None? || b.None? then Fault
        else Next(Machine(mem, if a.value == 0 then b.value else ip + 3, base), false, None)
      case _ =>
        var a, b := Load(mem, ip + 1, base, ins.mode1), Load(mem, ip + 2, base, ins.mode2);
        var s := Slot(mem, ip + 3, base, ins.mode3);
        if a.None? || b.None? || s.None? then Fault
        else Next(Machine(mem[s.value := Combine(ins.op, a.value, b.value)], ip + 4, base), false, None)
  }

  /**
   * The pointer strides: four words for add, multiply, less-than and equals,
   * two for input, output and base adjustment, and for a jump either its
   * target (when taken) or three words.
   */
  lemma StepStride(isa: Isa, m: Machine, input: Option<int>)
    requires Step(isa, m, input).Next?
    ensures var ins := Fetch(isa, m).value; var n := Step(isa, m, input).next;
      && (ins.op in {Sum, Multiply, LessThan, Equals} ==> n.ip == m.ip + 4)
      && (ins.op in {Input, Output, RelativeBaseOffset} ==> n.ip == m.ip + 2)
      && (ins.op == JumpIfTrue ==>
            (Load(m.mem, m.ip + 1, m.base, ins.mode1).value != 0 ==> n.ip == Load(m.mem, m.ip + 2, m.base, ins.mode2).value)
            && (Load(m.mem, m.ip + 1, m.base, ins.mode1).value == 0 ==> n.ip == m.ip + 3))
      && (ins.op == JumpIfFalse ==>
            (Load(m.mem, m.ip + 1, m.base, ins.mode1).value == 0 ==> n.ip == Load(m.mem, m.ip + 2, m.base, ins.mode2).value)
            && (Load(m.mem, m.ip + 1, m.base, ins.mode1).value != 0 ==> n.ip == m.ip + 3))
  {
  }

  /**
   * What each instruction stores: arithmetic and comparisons write their
   * result (a comparison only 1 or 0) to the slot of parameter 3, Input writes
   * the received value to the slot of parameter 1, and no other cell changes.
   * Output, the jumps and base adjustment leave memory alone; only base
   * adjustment moves the relative base, by its operand.
   */
  lemma StepEffect(isa: Isa, m: Machine, input: Option<int>)
    requires Step(isa, m, input).Next?
    ensures var ins := Fetch(isa, m).value; var n := Step(isa, m, input).next;
      && (ins.op in {Sum, Multiply, LessThan, Equals} ==>
            var s := Slot(m.mem, m.ip + 3, m.base, ins.mode3).value;
            var a := Load(m.mem, m.ip + 1, m.base, ins.mode1).value;
            var b := Load(m.mem, m.ip + 2, m.base, ins.mode2).value;
            n.mem == m.mem[s := Combine(ins.op, a, b)]
            && (ins.op == Sum ==> n.mem[s] == a + b)
            && (ins.op == Multiply ==> n.mem[s] == a * b)
            && (ins.op == LessThan ==> (n.mem[s] == 1 <==> a < b) && (n.mem[s] == 0 <==> a >= b))
            && (ins.op == Equals ==> (n.mem[s] == 1 <==> a == b) && (n.mem[s] == 0 <==> a != b)))
      && (ins.op == Input ==> n.mem == m.mem[Slot(m.mem, m.ip + 1, m.base, ins.mode1).value := input.value])
      && (ins.op !in {Sum, Multiply, LessThan, Equals, Input} ==> n.mem == m.mem)
      && (ins.op == RelativeBaseOffset ==> n.base == m.base + Load(m.mem, m.ip + 1, m.base, ins.mode1).value)
      && (ins.op != RelativeBaseOffset ==> n.base == m.base)
      && (ins.op == Output ==> Step(isa, m, input).emitted == Load(m.mem, m.ip + 1, m.base, ins.mode1))
  {
  }

  /** Why a run stopped. */
  datatype Status = Halted | AwaitingInput | Faulted | OutOfFuel

  /** The end of a run: why it stopped, the machine then, how many inputs it took and what it output. */
  datatype Trace = Trace(status: Status, final: Machine, consumed: nat, outputs: seq<int>)

  /**
   * Runs at most `fuel` instructions, taking inputs in order from position
   * `consumed` of `inputs` and appending every output to `outputs`.
   */
  function Run(isa: Isa, m: Machine, inputs: seq<int>, consumed: nat, outputs: seq<int>, fuel: nat): (t: Trace)
    requires consumed <= |inputs|
    ensures consumed <= t.consumed <= |inputs|
    ensures outputs <= t.outputs
    ensures |t.final.mem| == |m.mem|
    ensures t.status == AwaitingInput ==> t.consumed == |inputs|
    decreases fuel
  {
    if fuel == 0 then Trace(OutOfFuel, m, consumed, outputs)
    else
      match Step(isa, m, NextInput(inputs, consumed))
      case Halt => Trace(Halted, m, consumed, outputs)
      case Starved => Trace(AwaitingInput, m, consumed, outputs)
      case Fault => Trace(Faulted, m, consumed, outputs)
      case Next(n, took, emitted) =>
        Run(isa, n, inputs, if took then consumed + 1 else consumed,
            if emitted.Some? then outputs + [emitted.value] else outputs, fuel - 1)
  }

  /**
   * A run stops early only for a reason the final machine shows: it halts at
   * a Stop, it waits at an Input with every input taken, or the next
   * instruction faults.
   */
  lemma {:induction false} RunStopReason(isa: Isa, m: Machine, inputs: seq<int>, consumed: nat, outputs: seq<int>, fuel: nat)
    requires consumed <= |inputs|
    ensures var t := Run(isa, m, inputs, consumed, outputs, fuel);
      && (t.status == Halted ==> Fetch(isa, t.final).Some? && Fetch(isa, t.final).value.op == Stop)
      && (t.status == AwaitingInput ==> Step(isa, t.final, None).Starved?)
      && (t.status == Faulted ==> Step(isa, t.final, NextInput(inputs, t.consumed)).Fault?)
      && (t.status == OutOfFuel ==> fuel > 0 || t.final == m)
    decreases fuel
  {
    if fuel > 0 {
      var r := Step(isa, m, NextInput(inputs, consumed));
      RunUnfold(isa, m, inputs, consumed, outputs, fuel, r);
      if r.Next? {
        RunStopReason(isa, r.next, inputs, if r.consumed then consumed + 1 else consumed,
                      if r.emitted.Some? then outputs + [r.emitted.value] else outputs, fuel - 1);
      } else if r.Starved? {
        assert NextInput(inputs, consumed) == None;
      }
    }
  }

  /** The pointer at the word that encodes an instruction of the instruction set fetches that instruction. */
  lemma FetchEncoded(isa: Isa, m: Machine, ins: Instruction)
    requires HasOpcode(isa, ins.op) && HasMode(isa, ins.mode1) && HasMode(isa, ins.mode2) && HasMode(isa, ins.mode3)
    requires InBounds(m.mem, m.ip) && m.mem[m.ip] == Encode(ins)
    ensures Fetch(isa, m) == Some(ins)
  {
    ParseEncode(isa, ins);
  }

  /*
   * Step rules: the result of one step once the instruction and its operands
   * are known. The run rules below rest on them.
   */

  lemma StepCombine(isa: Isa, m: Machine, input: Option<int>, ins: Instruction, a: int, b: int, s: nat)
    requires Fetch(isa, m) == Some(ins) && ins.op in {Sum, Multiply, LessThan, Equals}
    requires Load(m.mem, m.ip + 1, m.base, ins.mode1) == Some(a) && Load(m.mem, m.ip + 2, m.base, ins.mode2) == Some(b)
    requires Slot(m.mem, m.ip + 3, m.base, ins.mode3) == Some(s)
    ensures Step(isa, m, input) == Next(Machine(m.mem[s := Combine(ins.op, a, b)], m.ip + 4, m.base), false, None)
  {
  }

  lemma StepInput(isa: Isa, m: Machine, v: int, ins: Instruction, s: nat)
    requires Fetch(isa, m) == Some(ins) && ins.op == Input
    requires Slot(m.mem, m.ip + 1, m.base, ins.mode1) == Some(s)
    ensures Step(isa, m, Some(v)) == Next(Machine(m.mem[s := v], m.ip + 2, m.base), true, None)
  {
  }

  lemma StepOutput(isa: Isa, m: Machine, input: Option<int>, ins: Instruction, a: int)
    requires Fetch(isa, m) == Some(ins) && ins.op == Output
    requires Load(m.mem, m.ip + 1, m.base, ins.mode1) == Some(a)
    ensures Step(isa, m, input) == Next(Machine(m.mem, m.ip + 2, m.base), false, Some(a))
  {
  }

  lemma StepJump(isa: Isa, m: Machine, input: Option<int>, ins: Instruction, a: int, b: int)
    requires Fetch(isa, m) == Some(ins) && ins.op in {JumpIfTrue, JumpIfFalse}
    requires Load(m.mem, m.ip + 1, m.base, ins.mode1) == Some(a) && Load(m.mem, m.ip + 2, m.base, ins.mode2) == Some(b)
    ensures Step(isa, m, input) == Next(Machine(m.mem, if (a != 0) == (ins.op == JumpIfTrue) then b else m.ip + 3, m.base), false, None)
  {
  }

  lemma StepBaseOffset(isa: Isa, m: Machine, input: Option<int>, ins: Instruction, a: int)
    requires Fetch(isa, m) == Some(ins) && ins.op == RelativeBaseOffset
    requires Load(m.mem, m.ip + 1, m.base, ins.mode1) == Some(a)
    ensures Step(isa, m, input) == Next(Machine(m.mem, m.ip + 2, m.base + a), false, None)
  {
  }

  /*
   * Run rules: one instruction of each kind, stated on runs. They let a proof
   * follow a concrete program instruction by instruction.
   */

  /** Add, multiply, less-than and equals store their result in the third parameter's slot and move on four words. */
  lemma RunCombine(isa: Isa, m: Machine, inputs: seq<int>, consumed: nat, outputs: seq<int>, fuel: nat,
                   ins: Instruction, a: int, b: int, s: nat)
    requires consumed <= |inputs| && fuel > 0
    requires Fetch(isa, m) == Some(ins) && ins.op in {Sum, Multiply, LessThan, Equals}
    requires Load(m.mem, m.ip + 1, m.base, ins.mode1) == Some(a) && Load(m.mem, m.ip + 2, m.base, ins.mode2) == Some(b)
    requires Slot(m.mem, m.ip + 3, m.base, ins.mode3) == Some(s)
    ensures Run(isa, m, inputs, consumed, outputs, fuel)
         == Run(isa, Machine(m.mem[s := Combine(ins.op, a, b)], m.ip + 4, m.base), inputs, consumed, outputs, fuel - 1)
  {
    StepCombine(isa, m, NextInput(inputs, consumed), ins, a, b, s);
    RunUnfold(isa, m, inputs, consumed, outputs, fuel, Next(Machine(m.mem[s := Combine(ins.op, a, b)], m.ip + 4, m.base), false, None));
  }

  /** Input stores the next unread input in the first parameter's slot and moves on two words. */
  lemma RunInput(isa: Isa, m: Machine, inputs: seq<int>, consumed: nat, outputs: seq<int>, fuel: nat, ins: Instruction, s: nat)
    requires consumed < |inputs| && fuel > 0
    requires Fetch(isa, m) == Some(ins) && ins.op == Input
    requires Slot(m.mem, m.ip + 1, m.base, ins.mode1) == Some(s)
    ensures Run(isa, m, inputs, consumed, outputs, fuel)
         == Run(isa, Machine(m.mem[s := inputs[consumed]], m.ip + 2, m.base), inputs, consumed + 1, outputs, fuel - 1)
  {
    StepInput(isa, m, inputs[consumed], ins, s);
    RunUnfold(isa, m, inputs, consumed, outputs, fuel, Next(Machine(m.mem[s := inputs[consumed]], m.ip + 2, m.base), true, None));
  }

  /** Output appends its operand to the outputs and moves on two words. */
  lemma RunOutput(isa: Isa, m: Machine, inputs: seq<int>, consumed: nat, outputs: seq<int>, fuel: nat, ins: Instruction, a: int)
    requires consumed <= |inputs| && fuel > 0
    requires Fetch(isa, m) == Some(ins) && ins.op == Output
    requires Load(m.mem, m.ip + 1, m.base, ins.mode1) == Some(a)
    ensures Run(isa, m, inputs, consumed, outputs, fuel)
         == Run(isa, Machine(m.mem, m.ip + 2, m.base), inputs, consumed, outputs + [a], fuel - 1)
  {
    StepOutput(isa, m, NextInput(inputs, consumed), ins, a);
    RunUnfold(isa, m, inputs, consumed, outputs, fuel, Next(Machine(m.mem, m.ip + 2, m.base), false, Some(a)));
  }

  /** A conditional jump goes to its second operand when taken and moves on three words otherwise. */
  lemma RunJump(isa: Isa, m: Machine, inputs: seq<int>, consumed: nat, outputs: seq<int>, fuel: nat, ins: Instruction, a: int, b: int)
    requires consumed <= |inputs| && fuel > 0
    requires Fetch(isa, m) == Some(ins) && ins.op in {JumpIfTrue, JumpIfFalse}
    requires Load(m.mem, m.ip + 1, m.base, ins.mode1) == Some(a) && Load(m.mem, m.ip + 2, m.base, ins.mode2) == Some(b)
    ensures Run(isa, m, inputs, consumed, outputs, fuel)
         == Run(isa, Machine(m.mem, if (a != 0) == (ins.op == JumpIfTrue) then b else m.ip + 3, m.base),
                inputs, consumed, outputs, fuel - 1)
  {
    StepJump(isa, m, NextInput(inputs, consumed), ins, a, b);
    RunUnfold(isa, m, inputs, consumed, outputs, fuel, Next(Machine(m.mem, if (a != 0) == (ins.op == JumpIfTrue) then b else m.ip + 3, m.base), false, None));
  }

  /** Base adjustment adds its operand to the relative base and moves on two words. */
  lemma RunBaseOffset(isa: Isa, m: Machine, inputs: seq<int>, consumed: nat, outputs: seq<int>, fuel: nat, ins: Instruction, a: int)
    requires consumed <= |inputs| && fuel > 0
    requires Fetch(isa, m) == Some(ins) && ins.op == RelativeBaseOffset
    requires Load(m.mem, m.ip + 1, m.base, ins.mode1) == Some(a)
    ensures Run(isa, m, inputs, consumed, outputs, fuel)
         == Run(isa, Machine(m.mem, m.ip + 2, m.base + a), inputs, consumed, outputs, fuel - 1)
  {
    StepBaseOffset(isa, m, NextInput(inputs, consumed), ins, a);
    RunUnfold(isa, m, inputs, consumed, outputs, fuel, Next(Machine(m.mem, m.ip + 2, m.base + a), false, None));
  }

  /** Stop ends the run where it stands. */
  lemma RunStop(isa: Isa, m: Machine, inputs: seq<int>, consumed: nat, outputs: seq<int>, fuel: nat, ins: Instruction)
    requires consumed <= |inputs| && fuel > 0
    requires Fetch(isa, m) == Some(ins) && ins.op == Stop
    ensures Run(isa, m, inputs, consumed, outputs, fuel) == Trace(Halted, m, consumed, outputs)
  {
    RunUnfold(isa, m, inputs, consumed, outputs, fuel, Step(isa, m, NextInput(inputs, consumed)));
  }

  /** The machine a program starts as: memory, then the pointer and relative base at zero. */
  function Boot(program: seq<int>): Machine
  {
    Machine(program, 0, 0)
  }

  /** The input the next Input instruction would receive. */
  function NextInput(inputs: seq<int>, consumed: nat): Option<int>
  {
    if consumed < |inputs| then Some(inputs[consumed]) else None
  }

  /** A run with fuel left is one step followed by the rest of the run. */
  lemma RunUnfold(isa: Isa, m: Machine, inputs: seq<int>, consumed: nat, outputs: seq<int>, fuel: nat, r: StepResult)
    requires consumed <= |inputs| && fuel > 0
    requires r == Step(isa, m, NextInput(inputs, consumed))
    ensures r.Halt? ==> Run(isa, m, inputs, consumed, outputs, fuel) == Trace(Halted, m, consumed, outputs)
    ensures r.Starved? ==> Run(isa, m, inputs, consumed, outputs, fuel) == Trace(AwaitingInput, m, consumed, outputs)
    ensures r.Fault? ==> Run(isa, m, inputs, consumed, outputs, fuel) == Trace(Faulted, m, consumed, outputs)
    ensures r.Next? ==> (r.consumed ==> consumed < |inputs|)
    ensures r.Next? ==> (Run(isa, m, inputs, consumed, outputs, fuel)
      == Run(isa, r.next, inputs, if r.consumed then consumed + 1 else consumed,
             if r.emitted.Some? then outputs + [r.emitted.value] else outputs, fuel - 1))
  {
  }

  /**
   * One turn of the interpreter loop: either the reason the run stops at
   * `m`, or the machine, input position, outputs and fuel after one
   * instruction, from which the run goes on.
   */
  method Tick(isa: Isa, m: Machine, inputs: seq<int>, consumed: nat, outputs: seq<int>, fuel: nat)
    returns (stop: Option<Status>, next: Machine, taken: nat, emitted: seq<int>, rest: nat)
    requires consumed <= |inputs| && fuel > 0
    ensures taken <= |inputs| && rest == fuel - 1
    ensures stop.Some? ==> Run(isa, m, inputs, consumed, outputs, fuel) == Trace(stop.value, m, consumed, outputs)
    ensures stop.None? ==> Run(isa, m, inputs, consumed, outputs, fuel) == Run(isa, next, inputs, taken, emitted, rest)
  {
    rest := fuel - 1;
    var r := Step(isa, m, NextInput(inputs, consumed));
    RunUnfold(isa, m, inputs, consumed, outputs, rest + 1, r);
    if r.Next? {
      stop := None;
      next := r.next;
      taken := if r.consumed then consumed + 1 else consumed;
      emitted := if r.emitted.Some? then outputs + [r.emitted.value] else outputs;
    } else {
      stop := Some(if r.Halt? then Halted else if r.Starved? then AwaitingInput else Faulted);
      next, taken, emitted := m, consumed, outputs;
    }
  }

  /**
   * The interpreter loop shared by every machine version: fetch, decode and
   * execute from machine `m` until the program stops, waits for an input,
   * faults or uses up its fuel.
   */
  method Resume(isa: Isa, m: Machine, inputs: seq<int>, consumed: nat, fuel: nat) returns (t: Trace)
    requires consumed <= |inputs|
    ensures t == Run(isa, m, inputs, consumed, [], fuel)
  {
    var current := m;
    var inputCounter: nat := consumed;
    var outputs: seq<int> := [];
    var left := fuel;
    ghost var goal := Run(isa, m, inputs, consumed, [], fuel);
    while left > 0
      invariant inputCounter <= |inputs|
      invariant Run(isa, current, inputs, inputCounter, outputs, left) == goal
      decreases left
    {
      var stop, next, taken, emitted, rest := Tick(isa, current, inputs, inputCounter, outputs, left);
      if stop.Some? {
        return Trace(stop.value, current, inputCounter, outputs);
      }
      current, inputCounter, outputs, left := next, taken, emitted, rest;
    }
    return Trace(OutOfFuel, current, inputCounter, outputs);
  }

  /** Runs a freshly booted program. */
  method Execute(isa: Isa, program: seq<int>, inputs: seq<int>, fuel: nat) returns (t: Trace)
    ensures t == Run(isa, Boot(program), inputs, 0, [], fuel)
    ensures |t.final.mem| == |program| && t.consumed <= |inputs|
  {
    t := Resume(isa, Boot(program), inputs, 0, fuel);
  }

  /** The outcome of one of the repository's machine functions. */
  datatype Outcome = Returned(value: int) | Panicked | Blocked | Exhausted

  /*
   * The channel-driven machines (`computer_ver4`, `computer_ver5` and the
   * arcade's computer) read their inputs from one channel and send their
   * outputs down another. The model gives a run the values that arrive, in
   * order, and says whether the receiving end of its output channel is gone:
   * sends to a live receiver are delivered, and a send to a dropped receiver
   * fails and records the value as the result instead. A machine that wants
   * an input when none arrives waits.
   */

  /** What a channel-driven machine returns after a run that ended as the trace says. */
  function ChannelOutcome(t: Trace, consumerGone: bool): (r: Outcome)
    ensures r.Returned? <==> t.status == Halted
    ensures r.Returned? && (!consumerGone || t.outputs == []) ==> r.value == 0
    ensures r.Returned? && consumerGone && t.outputs != [] ==> r.value == t.outputs[|t.outputs| - 1]
    ensures r.Blocked? <==> t.status == AwaitingInput
    ensures r.Panicked? <==> t.status == Faulted
    ensures r.Exhausted? <==> t.status == OutOfFuel
  {
    match t.status
    case Halted => Returned(if consumerGone then LastOr(t.outputs, 0) else 0)
    case AwaitingInput => Blocked
    case Faulted => Panicked
    case OutOfFuel => Exhausted
  }
}
