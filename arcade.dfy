/**
 * Day 13: the arcade cabinet. `Computer` is the relative-mode Intcode
 * machine as an object whose memory, pointer and relative base persist
 * between runs; `GameState` is the screen and the bookkeeping the game loop
 * keeps (score, joystick input, where the ball and the paddle are).
 *
 * The computer's channels are modelled as for the other channel-driven
 * machines: the values that arrive on the input channel, in order, how many
 * of them the machine has taken, the values delivered on the output channel,
 * and whether the receiving end of the output channel has been dropped.
 */
module Arcade {
  import opened Outcomes
  import opened Intcode
  import RelativeVm

  class Computer {
    var memory: seq<int>
    var memoryStartIndex: nat
    var instructionPointer: int
    var relativeBase: int
    var result: int
    /** The values that arrive on the input channel, in order. */
    var received: seq<int>
    /** How many of them the machine has taken. */
    var consumed: nat
    /** The values delivered on the output channel. */
    var sent: seq<int>
    /** Whether the receiving end of the output channel has been dropped. */
    var consumerGone: bool

    /** The machine never takes more values than have arrived. */
    ghost predicate Valid()
      reads this
    {
      consumed <= |received|
    }

    /** The machine as the interpreter sees it. */
    function State(): Machine
      reads this
    {
      Machine(memory, instructionPointer, relativeBase)
    }

    /**
     * `Computer::new`: memory is the program followed by `memorySize` zero
     * words; the pointer and the relative base start at 0 and the result
     * at -1.
     */
    constructor (program: seq<int>, memorySize: nat, received: seq<int>, consumerGone: bool)
      ensures Valid()
      ensures |memory| == |program| + memorySize
      ensures forall i | 0 <= i < |program| :: memory[i] == program[i]
      ensures forall i | |program| <= i < |memory| :: memory[i] == 0
      ensures memoryStartIndex == |program| && instructionPointer == 0 && relativeBase == 0 && result == -1
      ensures this.received == received && consumed == 0 && sent == [] && this.consumerGone == consumerGone
    {
      memory := program + RelativeVm.Zeros(memorySize);
      memoryStartIndex := |program|;
      instructionPointer := 0;
      relativeBase := 0;
      result := -1;
      this.received := received;
      consumed := 0;
      sent := [];
      this.consumerGone := consumerGone;
    }

    /**
     * `insert_at_mem`: overwrites one memory cell and nothing else; an
     * index past the end panics (`ok` false) and changes nothing.
     */
    method InsertAtMem(index: nat, val: int) returns (ok: bool)
      modifies this
      ensures ok <==> index < |old(memory)|
      ensures memory == if ok then old(memory)[index := val] else old(memory)
      ensures instructionPointer == old(instructionPointer) && relativeBase == old(relativeBase)
      ensures result == old(result) && memoryStartIndex == old(memoryStartIndex)
      ensures received == old(received) && consumed == old(consumed) && sent == old(sent)
      ensures consumerGone == old(consumerGone)
    {
      if index >= |memory| {
        return false;
      }
      memory := memory[index := val];
      return true;
    }

    /**
     * `run`: executes instructions from the current pointer until Stop,
     * an Input with no value left to take, a fault, or `fuel` instructions.
     * Outputs are delivered while the receiver lives; once it is gone each
     * failed send becomes the result. The registers are written back when
     * the run ends.
     */
    method Run(fuel: nat) returns (status: Status)
      requires Valid()
      modifies this
      ensures Valid()
      ensures var t := Intcode.Run(WithRelative, old(State()), old(received), old(consumed), [], fuel);
        && status == t.status
        && memory == t.final.mem && instructionPointer == t.final.ip && relativeBase == t.final.base
        && consumed == t.consumed
        && sent == (if consumerGone then old(sent) else old(sent) + t.outputs)
        && result == (if consumerGone then LastOr(t.outputs, old(result)) else old(result))
      ensures received == old(received) && consumerGone == old(consumerGone)
      ensures memoryStartIndex == old(memoryStartIndex)
    {
      var t := Resume(WithRelative, State(), received, consumed, fuel);
      status := t.status;
      memory, instructionPointer, relativeBase := t.final.mem, t.final.ip, t.final.base;
      consumed := t.consumed;
      if consumerGone {
        result := LastOr(t.outputs, result);
      } else {
        sent := sent + t.outputs;
      }
    }
  }

  /** `ruscii::spatial::Vec2`. */
  datatype Vec2 = Vec2(x: int, y: int)

  /** Rows and columns of the screen. */
  const Rows: nat := 28
  const Columns: nat := 40

  /** What a tile id draws: 0 empty ' ', 1 wall '#', 2 block '=', 3 paddle '-', 4 ball 'o'. */
  function TileChar(tile: nat): (c: Option<char>)
    ensures c.Some? <==> tile <= 4
  {
    if tile == 0 then Some(' ')
    else if tile == 1 then Some('#')
    else if tile == 2 then Some('=')
    else if tile == 3 then Some('-')
    else if tile == 4 then Some('o')
    else None
  }

  /** Every tile draws its own character, so the screen tells the tiles apart. */
  lemma TileCharInjective(a: nat, b: nat)
    requires TileChar(a).Some? && TileChar(b).Some?
    ensures TileChar(a) == TileChar(b) <==> a == b
  {
  }

  class GameState {
    var pixels: array2<char>
    var score: int
    var currentInput: int
    var ballPosition: Vec2
    var paddlePosition: Vec2

    /** The screen has 28 rows of 40 cells. */
    ghost predicate Valid()
      reads this
    {
      pixels.Length0 == Rows && pixels.Length1 == Columns
    }

    /** `GameState::new`: a screen of '.', score and input 0, ball and paddle at the origin. */
    constructor ()
      ensures Valid() && fresh(pixels)
      ensures forall i, j | 0 <= i < Rows && 0 <= j < Columns :: pixels[i, j] == '.'
      ensures score == 0 && currentInput == 0
      ensures ballPosition == Vec2(0, 0) && paddlePosition == Vec2(0, 0)
    {
      pixels := new char[Rows, Columns]((i, j) => '.');
      score := 0;
      currentInput := 0;
      ballPosition := Vec2(0, 0);
      paddlePosition := Vec2(0, 0);
    }

    /** `get_pixels`: a copy of the screen, row by row. */
    function GetPixels(): (rows: seq<seq<char>>)
      reads this, pixels
      ensures |rows| == pixels.Length0
      ensures forall i | 0 <= i < |rows| :: |rows[i]| == pixels.Length1
      ensures forall i, j | 0 <= i < |rows| && 0 <= j < pixels.Length1 :: rows[i][j] == pixels[i, j]
    {
      seq(pixels.Length0, i reads this, pixels requires 0 <= i < pixels.Length0 =>
        seq(pixels.Length1, j reads this, pixels requires 0 <= i < pixels.Length0 && 0 <= j < pixels.Length1 => pixels[i, j]))
    }

    /**
     * `draw_shape`: draws `tile` in row `x`, column `y`. The ball and the
     * paddle remember where they were drawn, as `Vec2::xy(y, x)`: their
     * `x` is the column. An unknown tile only logs an error and changes
     * nothing; a cell off the screen panics (`ok` false) after the position
     * update and before the cell is drawn.
     */
    method DrawShape(tile: nat, x: nat, y: nat) returns (ok: bool)
      requires Valid()
      modifies this, pixels
      ensures Valid() && pixels == old(pixels)
      ensures score == old(score) && currentInput == old(currentInput)
      ensures TileChar(tile).None? ==>
        ok && unchanged(pixels) && ballPosition == old(ballPosition) && paddlePosition == old(paddlePosition)
      ensures TileChar(tile).Some? ==>
        && (ok <==> x < Rows && y < Columns)
        && ballPosition == (if tile == 4 then Vec2(y, x) else old(ballPosition))
        && paddlePosition == (if tile == 3 then Vec2(y, x) else old(paddlePosition))
      ensures !ok ==> unchanged(pixels)
      ensures ok && TileChar(tile).Some? ==>
        && pixels[x, y] == TileChar(tile).value
        && forall i, j | 0 <= i < Rows && 0 <= j < Columns && (i, j) != (x, y) :: pixels[i, j] == old(pixels[i, j])
    {
      var color := TileChar(tile);
      if color.None? {
        return true;
      }
      if color.value == 'o' {
        ballPosition := Vec2(y, x);
      } else if color.value == '-' {
        paddlePosition := Vec2(y, x);
      }
      if x >= Rows || y >= Columns {
        return false;
      }
      pixels[x, y] := color.value;
      return true;
    }

    /** `get_score`: the highest score reported so far (see `UpdateScore`). */
    function GetScore(): (s: int)
      reads this
      ensures s == score
    {
      score
    }

    /** `update_score`: keeps the higher of the current and the reported score. */
    method UpdateScore(reported: int)
      modifies this
      ensures GetScore() >= old(GetScore()) && GetScore() >= reported
      ensures GetScore() == old(GetScore()) || GetScore() == reported
      ensures pixels == old(pixels) && currentInput == old(currentInput)
      ensures ballPosition == old(ballPosition) && paddlePosition == old(paddlePosition)
    {
      if reported > score {
        score := reported;
      }
    }

    /** `get_current_input`: the direction last set by `SetCurrentInput`. */
    function GetCurrentInput(): (d: int)
      reads this
      ensures d == currentInput
    {
      currentInput
    }

    /** `set_current_input`: the next `get_current_input` returns `direction`. */
    method SetCurrentInput(direction: int)
      modifies this
      ensures GetCurrentInput() == direction
      ensures pixels == old(pixels) && score == old(score)
      ensures ballPosition == old(ballPosition) && paddlePosition == old(paddlePosition)
    {
      currentInput := direction;
    }

    /**
     * `calculate_next_move`: the joystick tilt that brings the paddle's
     * column one step towards the ball's: -1 (left), 1 (right) or 0 when
     * they are level.
     */
    function CalculateNextMove(): (m: int)
      reads this
      ensures m == -1 || m == 0 || m == 1
      ensures m == 0 <==> ballPosition.x == paddlePosition.x
      ensures var gap := Abs(ballPosition.x - paddlePosition.x);
        Abs(ballPosition.x - (paddlePosition.x + m)) == if gap == 0 then 0 else gap - 1
    {
      if ballPosition.x < paddlePosition.x then -1
      else if ballPosition.x > paddlePosition.x then 1
      else 0
    }
  }
}
