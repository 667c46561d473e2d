# Advent of Code 2019, days 1 to 9 and 11 to 14, in Dafny

This project models the puzzle solutions of an Advent of Code 2019
repository written in Rust, one Dafny module per day:

- **Fuel** (day 1): the fuel formula, including its recursive form.
- **AddMulComputer** (day 2): the first Intcode interpreter (add, multiply,
  halt) and the noun/verb search.
- **Wires** (day 3): laying two wires on a grid, the closest crossing and the
  fewest combined steps.
- **Passwords** (day 4): the two password counts.
- **Intcode**: the instruction decoder, the parameter modes and the
  interpreter loop that days 5, 7, 9 and 13 share. The loop is one `Step`
  function and one `Resume` method, parameterised by the instruction set:
  the basic one of days 5 and 7, and the one with relative mode and base
  adjustment of days 9 and 13.
- **Diagnostic** (day 5), **Amplifiers** (day 7), **RelativeVm** (day 9) and
  **Arcade** (day 13): the interpreter versions built on that loop; the
  amplifier chain and its permutation search; the day 13 `Computer` and
  `GameState` objects.
- **Orbits**, **OrbitCount**, **OrbitRoutes** and **OrbitSamples** (day 6):
  parsing the orbit map, the stack walk of `count_orbits`, the ancestor
  search and the jump count, and the unit-test sample worked out.
- **Image** (day 8): splitting the image into layers, the checksum and the
  decoding.
- **Painter** (day 11): the canvas robot's turns, moves and paint.
- **Moons** and **Periods** (day 12): the gravity simulation, energy,
  coordinate parsing, and the repetition period through `find_pattern`,
  `gcd` and `lcm`.
- **Reactions** (day 14): parsing recipes, the `Inventory` object and its
  `request_item`, `craft_item` and `craft_until_n`.
- **RecipeText** (day 14): recipes written as lines of the puzzle input
  ("7 A, 1 B => 1 C"), and the proof that `Recipe::new` reads each such line
  back as the recipe it was written from.
- **Text** and **Outcomes**: the pieces of Rust's standard library the
  solutions lean on: `to_string`, `parse`, `split`, `trim`, `abs`, and a
  vector's sorted-first element.

A Rust panic is modelled as an explicit outcome: `None`, `Err`, a `false`
status, or the `Panicked`/`Crash` statuses of the interpreter. It is never
a precondition, except where a section below says so. Objects whose methods
update their fields (`Computer` and `GameState` of day 13, `Canvas` of
day 11, `Inventory` of day 14) are classes. Loops become methods with
invariants, and each method is proved against a functional specification.

## Model

| member | source | states |
|---|---|---|
| Fuel.Quot3 | src/day1.rs:1-3 | Rust's truncating `m / 3`: the Euclidean quotient for non-negative masses; for negative masses the quotient rounded toward zero (`3q - 3 < m <= 3q`), which is one more than the floor for negative masses not divisible by 3 |
| Fuel.FuelReqNonNegative | src/day1.rs:1-3 | for a non-negative mass, `fuel_req` is `m / 3 - 2` with Dafny's division |
| Fuel.FuelReqTruncates | src/day1.rs:1-3 | for negative masses the truncating division differs: mass -7 needs -4, not -5 |
| Fuel.FuelReqRecursive | src/day1.rs:5-12 | never negative; a mass of at most 6 needs no fuel; above that the result is at least the mass's own fuel and below the mass |
| Fuel.FuelReqRecursiveUnfolds | src/day1.rs:5-12 | one step of the recursion: the mass's own fuel plus the fuel that fuel needs |
| Fuel.FuelReqRecursiveExample | src/day1.rs:5-12 | mass 1969 needs 654 + 216 + 70 + 21 + 5 = 966 |
| AddMulComputer.StepAt | src/day2.rs:5-28 | one loop pass: 99 halts; 1 and 2 write the sum or product of the addressed cells into the third and change no other cell; an out-of-range pointer or address panics; otherwise the pointer moves four words |
| AddMulComputer.Exec | src/day2.rs:2-30 | the memory `computer` returns from pointer `ip`, as long as the program it was given, or None on a panic |
| AddMulComputer.UnknownOpcodeSkips | src/day2.rs:5-28 | an unrecognised opcode moves the pointer four words on and changes nothing else |
| AddMulComputer.Computer | src/day2.rs:2-30 | the in-place loop returns exactly what `Exec` gives from pointer 0 |
| AddMulComputer.SearchFound | src/day2.rs:32-44 | a found pair is in 0..=99, its run produces the target in cell 0, and every pair tried before it missed |
| AddMulComputer.SearchNoPair | src/day2.rs:32-44 | when nothing is found, every pair from the start on halted and left something other than the target in cell 0 |
| AddMulComputer.SearchPanicked | src/day2.rs:32-44 | a panicking search means the program is shorter than three words, or some pair's run panicked after every pair tried before it halted and missed |
| AddMulComputer.SearchAllMiss | src/day2.rs:32-44 | if every pair from the start on halts and misses, the search returns `NoPair` (the source's `Err`) |
| AddMulComputer.SearchFirstHit | src/day2.rs:32-44 | if (a, b) hits the target and every pair tried before it halts and misses, the search returns `Found(a, b)` (the source's `Ok((a, b))`) |
| AddMulComputer.PairComputer | src/day2.rs:32-44 | the nested loop returns what the search from (0, 0) finds, which `SearchFound`, `SearchNoPair` and `SearchPanicked` characterise, with `SearchAllMiss` and `SearchFirstHit` as the converses |
| AddMulComputer.ComputerDoubles | src/day2.rs:2-30 | the program `1,0,0,0,99` ends as `2,0,0,0,99` |
| AddMulComputer.ComputerSquares | src/day2.rs:2-30 | the program `2,4,4,5,99,0` ends with 9801 in cell 5 |
| AddMulComputer.ComputerWorkedExample | src/day2.rs:2-30 | the puzzle's worked example ends with 3500 in cell 0 |
| Wires.Direction | src/day3.rs:10-18 | only U, D, L and R are directions, and each stands for a unit vector |
| Wires.ParseMove | src/day3.rs:8-18 | a move exactly when the code has a known direction letter and the rest parses as an `i32`, which becomes its length; an unknown letter with a valid length is an error; everything else panics |
| Wires.Trail | src/day3.rs:6-25 | a move of `n` steps visits exactly `n` cells (none when `n <= 0`) |
| Wires.TrailIsStraight | src/day3.rs:6-25 | each cell of a move is one step of its direction past the one before it |
| Wires.WalkFailureSticks | src/day3.rs:6-25 | a wire that fails at some move fails the same way whatever follows |
| Wires.WalkIsContinuous | src/day3.rs:6-25 | a wire moves one unit step at a time from the origin |
| Wires.ManhattanDistance | src/day3.rs:60-62 | the distance is non-negative |
| Wires.ManhattanMetric | src/day3.rs:60-62 | the distance is symmetric and zero exactly between a cell and itself |
| Wires.CrossingsAreShared | src/day3.rs:29-49 | the crossings collected are exactly the second wire's cells that lie on the first wire's grid |
| Wires.Distances | src/day3.rs:50-53 | one distance from the origin per crossing, in order |
| Wires.ClosestCrossingIsClosest | src/day3.rs:3-58 | the answer is the least origin distance over the cells both wires visit, and it panics exactly when they share none |
| Wires.StepGrid | src/day3.rs:68-88 | a cell is on the grid exactly when the first wire visits it |
| Wires.StepGridKeepsLatest | src/day3.rs:68-88 | a revisited cell keeps the step count of its latest visit |
| Wires.StepSumsSnoc | src/day3.rs:93-120 | a step of the second wire onto the grid adds one sum, any other step none |
| Wires.StepSumsCover | src/day3.rs:93-120 | every step of the second wire onto the grid contributes its sum |
| Wires.StepSumsComeFromSteps | src/day3.rs:93-120 | every sum belongs to some step of the second wire onto the grid |
| Wires.FewestCombinedStepsIsLeast | src/day3.rs:64-125 | the answer is the least combined step count over shared cells, and it panics exactly when there is none |
| Wires.MarkMove | src/day3.rs:19-24 | the move's loop adds exactly the move's cells to the grid and ends at its last cell |
| Wires.LayFirstWire | src/day3.rs:6-25 | the grid is the set of cells the first wire visits, or the early return its failure causes |
| Wires.CrossMove | src/day3.rs:42-48 | the move's loop collects exactly the move's cells that lie on the grid |
| Wires.CrossSecondWire | src/day3.rs:29-49 | the crossings of the whole second wire with the grid, or its failure |
| Wires.DistancesFromOrigin | src/day3.rs:50-53 | the loop yields `Distances` of the crossings |
| Wires.WireCrossingManhattan | src/day3.rs:3-58 | the result is the closest crossing's distance, an error or a panic, as `ClosestCrossingIsClosest` characterises |
| Wires.CountMove | src/day3.rs:68-88 | the move's loop records the running step count of each cell it visits |
| Wires.CountFirstWire | src/day3.rs:68-88 | the grid is `StepGrid` of the first wire, or its failure |
| Wires.SumMove | src/day3.rs:93-120 | the move's loop adds both wires' step counts at each visit to the grid |
| Wires.SumSecondWire | src/day3.rs:93-120 | the sums are `StepSums` of the second wire, or its failure |
| Wires.WireCrossingSteps | src/day3.rs:64-125 | the result is the least combined step count, an error or a panic, as `FewestCombinedStepsIsLeast` characterises |
| Outcomes.Minimum | src/day3.rs:54-57 | `v.sort(); v[0]`: an element of the list that no element is below |
| Outcomes.Abs | src/day3.rs:60-62 | `abs` gives `n` or `-n` |
| Passwords.Insert | src/day4.rs:22 | inserting into a sorted list keeps it sorted and adds exactly one `c` |
| Passwords.Sort | src/day4.rs:22 | `sort` yields a sorted permutation of its input |
| Passwords.SortChangesUnsorted | src/day4.rs:19-25 | sorting leaves the digits unchanged exactly when they never decrease |
| Passwords.CharsBound | src/day4.rs:26-32 | a string has at most as many distinct characters as characters |
| Passwords.RepeatShrinksChars | src/day4.rs:26-32 | a repeated character leaves fewer distinct characters than characters |
| Passwords.IncreasingKeepsChars | src/day4.rs:26-32 | a strictly increasing string has only distinct characters |
| Passwords.SixDigitsRepeatAdjacent | src/day4.rs:19-32 | for six digits that never decrease, at most five distinct digits means two adjacent equal digits |
| Passwords.SixDigitsPairRepeats | src/day4.rs:51-64 | a digit occurring exactly twice already passes the distinct-digit test |
| Passwords.CountChars | src/day4.rs:51-54 | the fold's map has a key exactly for each character, counting its occurrences from `start` |
| Passwords.HasPair | src/day4.rs:58-64 | the scan finds a pair exactly when some digit is counted twice |
| Passwords.PassesFirstTest | src/day4.rs:18-34 | a number counts exactly when its digits never decrease and it has at most five distinct digits |
| Passwords.PassesStrictTest | src/day4.rs:40-66 | the stricter test adds that some digit occurs exactly twice |
| Passwords.NumPossiblePasswords | src/day4.rs:16-37 | the loop returns the number of `lo..hi` passing the first test |
| Passwords.ExtraNumPossiblePasswords | src/day4.rs:38-69 | the loop returns the number of `lo..hi` passing the stricter test |
| Passwords.CountWithinRange | src/day4.rs:16-37 | the count never exceeds the size of the range |
| Passwords.StrictCountBelow | src/day4.rs:38-69 | the stricter count never exceeds the first count |
| Intcode.OpcodeFrom | src/day9.rs:39-53 | `Opcode::try_from`: 1 to 9 and 99 are opcodes, the rest errors; opcode 9 only in the extended set |
| Intcode.ModeFrom | src/day9.rs:28-35 | `ParamMode::try_from`: 0 and 1 are modes, 2 only in the extended set |
| Intcode.OpcodeRoundTrip | src/day5.rs:34-47 | every opcode of an instruction set is recognised by its number |
| Intcode.ModeRoundTrip | src/day5.rs:23-29 | every mode of an instruction set is recognised by its digit |
| Intcode.NumDigits | src/day5.rs:50-61 | every number has at least one digit |
| Intcode.NumDigitsIsLength | src/day5.rs:50-61 | it is the length of the number's decimal text |
| Intcode.NumDigitsBound | src/day5.rs:50-61 | a number below 10^k has at most k digits |
| Intcode.Width | src/day5.rs:50-61 | `format!("{:05}")` pads to at least five characters and the digit count |
| Intcode.ParseInstruction | src/day9.rs:71-82 | a decoded instruction has only opcodes and modes of its instruction set; the digit layout is stated by `ParseFiveDigits`, `ParseNegative` and `ParseWideWords` |
| Intcode.FiveWide | src/day5.rs:50-61 | a word below 100000 is padded to exactly five characters |
| Intcode.LastTwoDigits | src/day5.rs:50-61 | the last two digits spell the word modulo 100 |
| Intcode.HighDigits | src/day5.rs:50-61 | the hundreds, thousands and ten-thousands digits of a five-digit word |
| Intcode.ParseFiveDigits | src/day5.rs:50-61 | for words below 100000 the opcode is `w % 100` and the modes the three higher digits |
| Intcode.ParseEncode | src/day9.rs:71-82 | decoding an encoded instruction gives it back |
| Intcode.ParseMultiplyImmediate | src/day5.rs:50-61 | 1002 is a multiply with an immediate second operand |
| Intcode.ParseRelativeMode | src/day9.rs:28-35 | mode 2 is rejected by the day 5 decoder and accepted by the day 9 one |
| Intcode.ParseBaseOffset | src/day9.rs:39-53 | opcode 9 exists only in the day 9 decoder |
| Intcode.ParseNegative | src/day5.rs:50-61 | every negative word is rejected |
| Intcode.ParseWideWords | src/day5.rs:50-61 | a word of six digits is not reduced to its last five: 100001 is an add with an immediate third parameter, and 100256 is rejected |
| Intcode.Slot | src/day9.rs:63-70 | `get_mut_param`: positional and relative modes designate an in-memory cell, immediate mode the parameter word itself |
| Intcode.LoadReadsSlot | src/day9.rs:55-70 | `get_param` reads exactly the cell `get_mut_param` would write |
| Intcode.LoadModes | src/day9.rs:55-61 | positional mode follows the pointer, immediate takes the word, relative offsets by the base |
| Intcode.ParamExamples | src/day5.rs:178-192 | the unit tests: an immediate read gives the word, and a write through an immediate slot changes it |
| Intcode.Step | src/day9.rs:93-177 | one loop pass keeps the memory size; it halts exactly at a Stop, starves only at an Input with no value, takes a value only for an Input and emits only for an Output |
| Intcode.StepStride | src/day9.rs:93-177 | the pointer moves four words for arithmetic and comparisons, two for input, output and base adjustment, and to the target or three words on for jumps |
| Intcode.StepEffect | src/day9.rs:93-177 | arithmetic writes its result, comparisons 1 or 0, input the value received, output appends its operand; nothing else changes |
| Intcode.Run | src/day9.rs:93-178 | a run takes inputs in order, only adds outputs and keeps the memory size; it waits for input only once every input is taken |
| Intcode.RunStopReason | src/day9.rs:93-178 | the final machine shows why the run stopped |
| Intcode.FetchEncoded | src/day9.rs:94 | the pointer at an encoded instruction fetches it |
| Intcode.RunCombine | src/day9.rs:97-110 | add, multiply, less-than and equals store their result in the third slot and move four words |
| Intcode.RunInput | src/day9.rs:111-117 | input stores the next value in the first slot and moves two words |
| Intcode.RunOutput | src/day9.rs:118-126 | output appends its operand and moves two words |
| Intcode.RunJump | src/day9.rs:127-144 | a jump goes to its target when taken and three words on otherwise |
| Intcode.RunBaseOffset | src/day9.rs:169-173 | base adjustment adds its operand to the base and moves two words |
| Intcode.RunStop | src/day9.rs:174-176 | Stop ends the run where it stands |
| Intcode.RunUnfold | src/day9.rs:93-178 | a run with fuel left is one step and then the rest of the run |
| Intcode.Tick | src/day9.rs:93-177 | one turn of the loop yields either the stop reason or exactly the next machine |
| Intcode.Resume | src/day9.rs:93-178 | the loop ends in the state `Run` gives |
| Intcode.Execute | src/day9.rs:85-93 | a freshly booted program runs as `Run` from pointer 0 and base 0 |
| Intcode.ChannelOutcome | src/day9.rs:118-126 | a halted run returns the last output when the receiver is gone and 0 otherwise; a run waiting for input blocks; a fault panics |
| Diagnostic.Ver2Outcome | src/day5.rs:85-167 | a halted run returns its last output, or 0 when there is none; a fault or a missing stdin line is a panic |
| Diagnostic.ComputerVer2 | src/day5.rs:85-167 | `computer_ver2` returns what the shared loop computes for its input lines |
| Diagnostic.EchoOutputsItsInput | src/day5.rs:85-167 | the echo program `3,0,4,0,99` returns the value it reads |
| Diagnostic.EchoWithoutInputPanics | src/day5.rs:77-83 | with no input line the echo program panics at its first instruction |
| Diagnostic.EqualsEightRuns | src/day5.rs:85-167 | the comparison program runs four instructions, takes one input and outputs one value |
| Diagnostic.EqualsEightCompares | src/day5.rs:85-167 | the comparison program outputs 1 for input 8 and 0 otherwise |
| Amplifiers.MinOf | src/day7.rs:104-116 | the smallest element of a non-empty set: in the set, and below every other |
| Amplifiers.Least | src/day7.rs:104-116 | a recursive definition of the least element: in the set and below every element |
| Amplifiers.RecGetPermutations | src/day7.rs:104-116 | `generated` grows by exactly the permutations `PermsFrom` lists, in the order of the `BTreeSet` |
| Amplifiers.PermsCount | src/day7.rs:104-116 | there are n! permutations of n elements |
| Amplifiers.PermsShape | src/day7.rs:104-116 | each permutation is `current` followed by an arrangement of all the elements |
| Amplifiers.PermsDistinct | src/day7.rs:104-116 | all the permutations generated differ |
| Amplifiers.Ver3Of | src/day7.rs:6-90 | a halted run returns 0 and leaves the last output in `*output`, or its old value when nothing was output; reading past the inputs or a fault panics |
| Amplifiers.ComputerVer3 | src/day7.rs:6-90 | `computer_ver3` returns what the shared loop computes |
| Amplifiers.Chain | src/day7.rs:92-102 | the chain never blocks, and with fewer than five phases it never returns a signal |
| Amplifiers.PhaseSetter | src/day7.rs:92-102 | the signal out of the last amplifier, the first receiving 0 |
| Amplifiers.Best | src/day7.rs:117-131 | the search never blocks |
| Amplifiers.BestReturns | src/day7.rs:117-131 | the search returns a value exactly when every chain does |
| Amplifiers.BestBounds | src/day7.rs:117-131 | the value is at least the start and every chain's signal, and equals one of them |
| Amplifiers.TryPhaseCombinations | src/day7.rs:117-131 | the maximum signal over all orderings of the phases, starting from 0 |
| Amplifiers.ComputerVer4 | src/day7.rs:147-234 | `computer_ver4` returns the channel outcome of the shared loop on the values received |
| Amplifiers.Ver4MatchesVer3 | src/day7.rs:147-234 | with its receiver gone, version 4 returns the last value output, which is what version 3 leaves in `*output` |
| Amplifiers.ChainComputes | src/day7.rs:92-102 | a program computing `f(p, x)` makes the chain compute the fold of `f` |
| Amplifiers.Amp1Stage | src/day7.rs:294-296 | the first test program turns phase p and signal x into 10x + p |
| Amplifiers.Amp1Stages | src/day7.rs:294-296 | every amplifier running it computes that law |
| Amplifiers.PhaseSetterFirstExample | src/day7.rs:299-302 | phases 4, 3, 2, 1, 0 give 43210 |
| Amplifiers.Amp2Runs | src/day7.rs:303-304 | the whole run of the second program, with its intermediate values |
| Amplifiers.Amp2Stage | src/day7.rs:303-304 | one amplifier turns phase p and signal x into 10x plus the shifted phase |
| Amplifiers.Amp2Stages | src/day7.rs:303-304 | every amplifier running it computes that law |
| Amplifiers.PhaseSetterSecondExample | src/day7.rs:303-306 | phases 1, 0, 4, 3, 2 give 65210 |
| RelativeVm.Zeros | src/day9.rs:87 | a run of `n` zero words |
| RelativeVm.Ver5Memory | src/day9.rs:86-87 | the program followed by 16000 zero words |
| RelativeVm.ComputerVer5 | src/day9.rs:85-180 | `computer_ver5` returns the channel outcome of the shared loop on the values received |
| RelativeVm.QuineBoots | src/day9.rs:217-219 | the quine boots with its code and zeros in cells 100 and 101 |
| RelativeVm.QuinePass | src/day9.rs:217-219 | a pass outputs word k and returns to the start with counter and base one higher |
| RelativeVm.QuineLastPass | src/day9.rs:217-219 | the last pass outputs the final word and stops |
| RelativeVm.QuineFinishes | src/day9.rs:217-219 | from pass k with k words output, the quine outputs the rest of its code and halts |
| RelativeVm.QuineOutputsItself | src/day9.rs:250-254 | `computer_ver5` on the quine sends its sixteen words in order and returns 0 |
| Arcade.Computer.constructor | src/day13.rs:105-112 | memory is the program then `memorySize` zeros; pointer and base 0, result -1 |
| Arcade.Computer.InsertAtMem | src/day13.rs:114-116 | overwrites one cell; an index past the end panics and changes nothing |
| Arcade.Computer.Run | src/day13.rs:118-209 | the registers end as `Intcode.Run` leaves them; outputs go to a live receiver or become the result |
| Arcade.TileChar | src/day13.rs:231-253 | exactly the tile ids 0 to 4 draw a character |
| Arcade.TileCharInjective | src/day13.rs:231-253 | different tiles draw different characters |
| Arcade.GameState.constructor | src/day13.rs:222-225 | a screen of '.', score and input 0, ball and paddle at the origin |
| Arcade.GameState.GetPixels | src/day13.rs:227-229 | a copy of the screen, row by row |
| Arcade.GameState.DrawShape | src/day13.rs:231-253 | the tile's character lands in row x, column y and nothing else changes; ball and paddle remember `(y, x)`; an out-of-range cell panics |
| Arcade.GameState.GetScore | src/day13.rs:255-257 | the stored score, which the constructor starts at 0 and `UpdateScore` only ever raises |
| Arcade.GameState.UpdateScore | src/day13.rs:258-262 | the score `GetScore` returns becomes the larger of the old and the reported one; nothing else changes |
| Arcade.GameState.GetCurrentInput | src/day13.rs:264-266 | the stored joystick direction, 0 after the constructor and the last value `SetCurrentInput` set afterwards |
| Arcade.GameState.SetCurrentInput | src/day13.rs:264-270 | the next `get_current_input` returns the direction set |
| Arcade.GameState.CalculateNextMove | src/day13.rs:272-293 | -1, 0 or 1, zero exactly when ball and paddle share a column, and a move that closes the gap between them by one |
| Painter.FromHeading | src/day11.rs:6-9 | the direction with a compass reading, the inverse of `Heading` |
| Painter.TurnIsQuarterTurn | src/day11.rs:41-87 | rotation 1 turns clockwise, 0 counter-clockwise; other rotations and directions are rejected |
| Painter.TurnBack | src/day11.rs:41-87 | a left turn then a right one, or the reverse, restores the direction |
| Painter.FourTurns | src/day11.rs:41-87 | four equal turns restore the direction |
| Painter.MoveIsUnitStep | src/day11.rs:91-99 | a move is one cell along the direction, failing only below coordinate 0 |
| Painter.StepBack | src/day11.rs:91-99 | two equal turns reverse the direction, and a step back undoes a step |
| Painter.Canvas.constructor | src/day11.rs:20-26 | an all-'.' 500 by 500 grid with a '#' at (250, 250), the arrow up, nothing painted |
| Painter.Canvas.PaintCanvas | src/day11.rs:28-39 | colour 0 paints '.', colour 1 paints '#' and records the cell, other colours change nothing; only the current cell changes |
| Painter.Canvas.MoveLocation | src/day11.rs:91-99 | one step in the direction; a step below 0 panics and leaves the location |
| Painter.Canvas.MoveArrow | src/day11.rs:41-89 | the arrow turns by the rotation and steps once in the new direction, a step below 0 panicking; other rotations change nothing |
| Orbits.ParsePair | src/day6.rs:29-45 | a line panics exactly when it has no ')' |
| Orbits.ParsePairRoundTrip | src/day6.rs:29-45 | writing a pair as "A)B" and reading it back gives the pair |
| Orbits.PairsOf | src/day6.rs:29-45 | every line parsed in order, or the panic of the first bad line |
| Orbits.ParsePairs | src/day6.rs:29-45 | the loop returns `PairsOf` of the lines |
| Orbits.OrbitersOfCenters | src/day6.rs:47-53 | a name has orbiters exactly when some pair has it as centre |
| Orbits.InsertOrbitsToHashmap | src/day6.rs:47-53 | each orbiter is appended to its centre's list, in order |
| Orbits.AddOrbiters | src/day6.rs:61-63 | the inner loop adds exactly one centre's orbiters to the set |
| Orbits.CentersNotOrbiting | src/day6.rs:55-72 | the centres, the orbiters and their difference |
| Orbits.FindLeftmostCom | src/day6.rs:55-72 | the centre that orbits nothing when there is exactly one; an error otherwise |
| OrbitCount.PushUnseen | src/day6.rs:120-124 | each orbiter is marked seen and pushed if it was unseen |
| OrbitCount.VisitFirst | src/day6.rs:81-125 | the first pass marks the root and pushes its orbiters one level deeper |
| OrbitCount.VisitCom | src/day6.rs:81-125 | the root, back on top, is recorded at depth zero |
| OrbitCount.VisitCentre | src/day6.rs:81-125 | a name with orbiters is recorded at the current depth and its orbiters pushed |
| OrbitCount.VisitLeaf | src/day6.rs:81-125 | a name without orbiters is recorded at the current depth |
| OrbitCount.StepSeparator | src/day6.rs:81-125 | a marker on top is popped and the depth goes back a level |
| OrbitCount.VisitTop | src/day6.rs:81-125 | one pass on a name: marked seen, recorded or expanded, as the source's branches say |
| OrbitCount.VisitKeeps | src/day6.rs:81-125 | every pass keeps the walk's invariant and shrinks the work left |
| OrbitCount.WalkDone | src/day6.rs:81-125 | at the empty stack every depth is recorded and they sum to the root's total |
| OrbitCount.Walk | src/day6.rs:81-125 | the loop's recorded depths add up to the root's total |
| OrbitCount.SumDepths | src/day6.rs:129-131 | the fold over the depth map is the sum of every recorded depth |
| OrbitCount.CountOrbits | src/day6.rs:74-132 | None exactly when there is not one root; otherwise the recursive depth sum `Total` from the root |
| OrbitRoutes.Route | src/day6.rs:134-155 | what the search leaves is empty, or starts at the name searched from and ends at the target |
| OrbitRoutes.RecFindAncestors | src/day6.rs:134-155 | the vector grows by `Route`, or by nothing once the search is complete |
| OrbitRoutes.SearchOrbiters | src/day6.rs:147-149 | the loop over the orbiters appends what each search leaves |
| OrbitRoutes.RouteChain | src/day6.rs:134-155 | in a tree the route is a chain: each name orbits the one before it |
| OrbitRoutes.RouteComplete | src/day6.rs:134-155 | every chain down to the target is the route: it is unique |
| OrbitRoutes.AncestorsArePath | src/day6.rs:134-155 | from `start` in a tree the search leaves nothing when no chain reaches the target, and otherwise the chain from `start` to it |
| OrbitRoutes.RouteSuffix | src/day6.rs:134-155 | the route from a name on a route is that route's tail from there |
| OrbitRoutes.CommonPrefix | src/day6.rs:157-169 | the longest common prefix's length is at most both lengths, and the elements agree up to it |
| OrbitRoutes.CommonPrefixIs | src/day6.rs:157-169 | a shared prefix that cannot be extended is the longest |
| OrbitRoutes.CommonAncestorPanics | src/day6.rs:157-169 | it panics exactly when the second route is a proper prefix of the first |
| OrbitRoutes.FindCommonAncestor | src/day6.rs:157-169 | the last name both routes share, or the panic |
| OrbitRoutes.CommonAncestorShared | src/day6.rs:157-169 | two routes from the same name share it, and the answer is their last shared name |
| OrbitRoutes.FindClosestAncestor | src/day6.rs:171-178 | the common ancestor of the two routes from the start |
| OrbitRoutes.FindNumberOfJumps | src/day6.rs:180-188 | the method returns `Jumps`, whose value `JumpsBetween` gives |
| OrbitRoutes.CountJumps | src/day6.rs:180-188 | the jump count once the ancestor is known |
| OrbitRoutes.JumpsBetween | src/day6.rs:180-188 | in a tree, the closest ancestor is the last shared name of the routes and the jumps are the routes' remaining lengths minus two |
| OrbitRoutes.JumpsFromTails | src/day6.rs:180-188 | counted from the last shared name, the jumps are what the tails leave out |
| OrbitSamples.SampleRanked | src/day6.rs:237-243 | the test map is ranked, each orbiter one level below its centre |
| OrbitSamples.SampleCount | src/day6.rs:237-243 | the depth sum of the test map is 18 |
| OrbitSamples.SampleShape | src/day6.rs:237-243 | A is the only root of the test map |
| OrbitSamples.SampleAncestors | src/day6.rs:247-253 | the search from A to D collects A, B, C, D |
| OrbitSamples.SampleCommonAncestor | src/day6.rs:255-266 | the common ancestor of the routes to D and G is B |
| OrbitSamples.SampleClosestAncestor | src/day6.rs:268-272 | the closest ancestor of F and H is B |
| OrbitSamples.SampleClosestSiblings | src/day6.rs:275-280 | the closest ancestor of F and E is D |
| OrbitSamples.SampleJumpsSiblings | src/day6.rs:275-280 | F and E need no jump |
| OrbitSamples.SampleJumpsCousins | src/day6.rs:275-280 | F and H need two jumps |
| Image.LayersSplit | src/day8.rs:3-15 | the image splits exactly when its length is a multiple of the layer size; the layers have that size and join back to the image |
| Image.SplitIntoLayers | src/day8.rs:3-15 | the loop cuts layers of `m * n` characters off the front; a short last piece panics |
| Image.Count0s | src/day8.rs:17-23 | the number of '0' characters |
| Image.CountChars | src/day8.rs:25-31 | a key for each character present, mapped to its number of occurrences |
| Image.CountsAddUp | src/day8.rs:25-31 | the counts add up to the string's length |
| Image.Kept | src/day8.rs:37-44 | -1 or the index of a layer already scanned |
| Image.KeptIsFirstFewest | src/day8.rs:37-44 | nothing is kept exactly when no layer has fewer '0' than `size`; otherwise the first layer with the fewest '0' |
| Image.ScanLayers | src/day8.rs:37-44 | the loop runs to the end exactly when every layer has a '0', and then returns the kept layer's counts, or none when no layer was kept |
| Image.FindSmallest0Mult12 | src/day8.rs:33-57 | the ones times the twos of the first layer with the fewest '0'; None on the split or unwrap panics |
| Image.FirstVisibleIsFrontmost | src/day8.rs:59-72 | a pixel is visible exactly when some layer is opaque there, showing the first such layer |
| Image.FirstVisibleBehind | src/day8.rs:59-72 | one more layer at the back only fills pixels still unseen |
| Image.DecodePixels | src/day8.rs:59-72 | each position's first '0' or '1' front to back; never opaque positions stay absent |
| Image.DecodeStep | src/day8.rs:62-68 | one character of the inner loop keeps the decoding invariant |
| Image.AssembleImage | src/day8.rs:74-91 | `n` rows of `m`: row i, column j is the decoded pixel `i * m + j`, or '2' when none is opaque |
| Moons.EnergyZero | src/day12.rs:19-28 | a moon has no energy exactly when it is at the origin or stands still |
| Moons.PullAntisymmetric | src/day12.rs:30-68 | the pull is mutual and opposite, and a moon does not pull itself |
| Moons.StepGravityMeaning | src/day12.rs:30-68 | positions stay, the velocities' sum is kept, and each component moves by at most one towards the other moon |
| Moons.Attracted | src/day12.rs:92-100 | gravity keeps the number of moons |
| Moons.Drifted | src/day12.rs:102-108 | moving keeps the number of moons |
| Moons.Steps | src/day12.rs:109-114 | time steps keep the number of moons |
| Moons.PullsCancel | src/day12.rs:30-68 | the pulls among any moons cancel out |
| Moons.MomentumConserved | src/day12.rs:109-114 | time steps never change the total velocity |
| Moons.ProgressStep | src/day12.rs:92-100 | handling pair (i, j) moves the loop's progress to the next pair |
| Moons.ProgressDone | src/day12.rs:92-100 | after the last pair the moons are the attracted system |
| Moons.CalculateVelocities | src/day12.rs:92-100 | the array becomes the attracted system; an empty list is the `len() - 1` underflow panic |
| Moons.PullPairsOf | src/day12.rs:94-98 | the inner loop applies `step_gravity` to moon i and every later moon |
| Moons.CalculateNewLocations | src/day12.rs:102-108 | every moon moves by its velocity |
| Moons.FullStepsN | src/day12.rs:109-114 | the array becomes `Steps`; an empty list panics |
| Moons.CoordParser | src/day12.rs:71-82 | the first three pieces that parse as `i32`; None with fewer than three |
| Moons.CoordinatesFormat | src/day12.rs:71-82 | parsing a rendered coordinate line gives the position back |
| Moons.SampleCoordinates | src/day12.rs:426-429 | `<x=17, y=-9, z=4>` parses to (17, -9, 4) |
| Moons.NewMoon | src/day12.rs:11-14 | a moon at the parsed position, standing still |
| Moons.ParseMoons | src/day12.rs:84-90 | one moon per line, in order; a bad line panics |
| Moons.CalculateTotalEnergy | src/day12.rs:116-123 | the energy after n steps; None where parsing or an empty system panics |
| Periods.GcdDivides | src/day12.rs:284-290 | `gcd` divides both arguments |
| Periods.GcdGreatest | src/day12.rs:284-290 | every common divisor divides `gcd` |
| Periods.GcdZero | src/day12.rs:284-290 | `gcd` is zero only when both arguments are |
| Periods.LcmMeaning | src/day12.rs:292-294 | `lcm` exists unless both are zero; it is a common multiple and times `gcd` the product |
| Periods.LcmLeast | src/day12.rs:292-294 | `lcm` divides every common multiple |
| Periods.PeriodFromMeaning | src/day12.rs:382-400 | the search finds a period, or the whole length, with no shorter period before it |
| Periods.PatternLengthMeaning | src/day12.rs:382-400 | the pattern length is the shortest period of at most half the history, or the whole length |
| Periods.PrefixRepeats | src/day12.rs:382-400 | the history is its first `l` elements repeated |
| Periods.PatternLengthPositive | src/day12.rs:382-400 | only the empty history has an empty pattern |
| Periods.FindPattern | src/day12.rs:382-400 | the loop returns the first prefix that the whole history repeats |
| Periods.FoldLcmMultiple | src/day12.rs:374-377 | folding positive lengths gives a positive common multiple |
| Periods.FoldLcmLeast | src/day12.rs:374-377 | the fold divides every common multiple |
| Periods.FoldLcmZeros | src/day12.rs:374-377 | two zero lengths make the fold divide zero by zero |
| Periods.FoldLcmPrefixNone | src/day12.rs:374-377 | once a prefix fails, so does the whole fold |
| Periods.Trajectory | src/day12.rs:305-337 | n states, each with as many moons as the start |
| Periods.Histories | src/day12.rs:305-337 | four histories of one coordinate, one entry per state |
| Periods.TrajectoryGrows | src/day12.rs:305-337 | one more step pushes its positions onto the histories |
| Periods.PatternLengths | src/day12.rs:369-372 | there are twelve pattern lengths |
| Periods.FoldedPeriod | src/day12.rs:369-377 | the fold exists exactly when n > 0, and every pattern length divides it |
| Periods.RepetitionPeriodMeaning | src/day12.rs:296-380 | the period exists exactly when a step was taken, and every coordinate history of moons 0 to 3 repeats with it |
| Periods.FoldedPeriodLeast | src/day12.rs:369-377 | the fold divides every common multiple of the lengths |
| Periods.RepetitionPeriodLeast | src/day12.rs:296-380 | the period divides every common multiple of the pattern lengths |
| Periods.CalculateRepetitionPeriod | src/day12.rs:296-380 | a result exactly when the lines parse, there are at least four moons and n > 0; it is `RepetitionPeriod` of the simulated trajectory |
| Periods.RecordPositions | src/day12.rs:305-337 | n steps, each pushing the coordinates of moons 0 to 3; fewer than four moons panics |
| Periods.FoldLengths | src/day12.rs:374-377 | the loop returns the fold over the lengths |
| Periods.Lengths | src/day12.rs:339-372 | the pattern of each of the twelve histories and their lengths |
| Text.Natural | src/day4.rs:19 | `to_string`: at least one digit, no leading zero, and the digits' value is the number |
| Text.ParseInt | src/day14.rs:12 | `parse`: a value is in the type's range and comes from non-empty text |
| Text.ParseShow | src/day14.rs:12 | parsing a rendered number gives it back |
| Text.FindFrom | src/day6.rs:29-45 | the first occurrence at or after `from` |
| Text.Split | src/day6.rs:29-45 | `split` by a string pattern yields at least one piece |
| Text.SplitJoin | src/day6.rs:29-45 | joining the pieces with the pattern rebuilds the string |
| Text.SplitPiecesFree | src/day6.rs:29-45 | no piece contains the pattern |
| Text.SplitAny | src/day12.rs:71-82 | `split` on a set of characters yields at least one piece |
| Text.SplitAnyShape | src/day12.rs:71-82 | one more piece than separators, none holding a separator |
| Text.SplitAnyFree | src/day14.rs:11 | a string without separators splits into itself |
| Text.SplitAnyFirst | src/day14.rs:11 | the first separator ends the first piece |
| Text.TrimKeeps | src/day14.rs:11 | a string that neither starts nor ends with whitespace is its own trim |
| Text.ShowChars | src/day14.rs:12 | a rendered number is digits with at most a leading '-' |
| Text.ShowUnspaced | src/day14.rs:12 | a rendered number is not empty and holds no whitespace |
| Reactions.ParseIngredient | src/day14.rs:10-15 | a parsed amount fits an `i64` |
| Reactions.IngredientPieces | src/day14.rs:11-13 | "<text> <name>" cuts into the two words, already trimmed |
| Reactions.IngredientRoundTrip | src/day14.rs:10-15 | writing an ingredient as "<amount> <name>" and reading it back gives it |
| Reactions.ParseEachMeaning | src/day14.rs:30-33 | a list parses exactly when every piece does, in order |
| RecipeText.ParsePadded | src/day14.rs:10-13 | whitespace around a written ingredient does not change what `Ingredient::new` reads from it |
| RecipeText.SplitArrow | src/day14.rs:27 | a line with one "=>" and no other '=' cuts into the text before it and, when not empty, the text after it |
| RecipeText.RecipeSides | src/day14.rs:27 | a written recipe line cuts at "=>" into exactly two tokens: the ingredient side (empty when there are no ingredients) and the output |
| RecipeText.CommaSplit | src/day14.rs:29 | words joined with ", " cut at ',' into the words, each padded with the spaces around its commas |
| RecipeText.LeftSidePieces | src/day14.rs:29 | the ingredient side of a written line cuts at ',' into one piece per ingredient |
| RecipeText.PaddedParse | src/day14.rs:30-32 | each of those pieces reads back as its own ingredient |
| RecipeText.ParseEachAll | src/day14.rs:30-32 | pieces that each parse to the matching value parse, as a list, to those values in order |
| RecipeText.LeftSideParses | src/day14.rs:29-32 | the ingredient side reads back as the ingredient list, in order; an empty side gives no ingredients |
| RecipeText.RecipeRoundTrip | src/day14.rs:25-37 | writing a recipe with `i64` amounts and plain names as "a1 n1, a2 n2 => a n" and reading it with `Recipe::new` gives back the same ingredients in order and the same output; a recipe without ingredients is written "=> a n" and reads back with none |
| Reactions.FiledUnderOwnName | src/day14.rs:45-53 | each recipe is filed under its output name |
| Reactions.FiledHasEveryName | src/day14.rs:45-53 | every output name is filed |
| Reactions.FiledKeepsLast | src/day14.rs:45-53 | a name produced by several recipes keeps the last |
| Reactions.NewRecipeBook | src/day14.rs:45-53 | every line parsed and filed under its output name; a bad line panics |
| Reactions.ParsePrefixNone | src/day14.rs:45-53 | once a line fails, the whole book fails |
| Reactions.Batches | src/day14.rs:160-164 | defined exactly when the batch size is not zero (a zero size divides by zero) |
| Reactions.BatchesCeiling | src/day14.rs:160-164 | n batches cover the amount and n - 1 do not |
| Reactions.Craft | src/day14.rs:176-186 | succeeds exactly when the item has a recipe with a non-zero output and an ingredient |
| Reactions.RequestKeys | src/day14.rs:148-174 | crafting gives the item an entry and keeps every other entry |
| Reactions.GatherKeys | src/day14.rs:165-168 | the ingredient loop keeps every entry |
| Reactions.RequestFrame | src/day14.rs:148-174 | crafting changes only the item and chemicals ranked below it |
| Reactions.GatherFrame | src/day14.rs:165-168 | the ingredient loop changes only chemicals below the item |
| Reactions.RequestCovers | src/day14.rs:148-174 | a successful request leaves at least `amount` of the item, never lowers the ORE total, and keeps leftovers non-negative |
| Reactions.GatherCovers | src/day14.rs:165-168 | the ingredient loop never lowers the ORE total and keeps leftovers non-negative |
| Reactions.RoundCovers | src/day14.rs:199-202 | a round never lowers the ORE total and keeps leftovers non-negative |
| Reactions.RoundsCover | src/day14.rs:192-204 | so do any number of rounds |
| Reactions.RoundsSnoc | src/day14.rs:199-202 | one more round continues from the store the earlier ones left |
| Reactions.Undo | src/day14.rs:194-197 | undoing an overshooting round restores the snapshot and keeps the search invariant |
| Reactions.Advance | src/day14.rs:198-203 | a round within budget keeps the search invariant |
| Reactions.Finished | src/day14.rs:192-205 | at the end the store is what the kept rounds make, `produced` is their sum, the ORE is within budget and one more round overshoots |
| Reactions.Inventory.constructor | src/day14.rs:144-146 | no leftovers and no ORE used |
| Reactions.Inventory.GetUsedOre | src/day14.rs:208-210 | the ORE spent so far, the total every craft adds to and that `CraftUntilN` compares with the budget |
| Reactions.Inventory.CraftItem | src/day14.rs:176-186 | the inventory becomes `Craft`'s store; a panic changes nothing |
| Reactions.Inventory.RequestItem | src/day14.rs:148-174 | the inventory becomes exactly `Request`'s store, stock and ORE total |
| Reactions.Inventory.GatherIngredients | src/day14.rs:165-168 | the inventory becomes `Gather`'s store |
| Reactions.Inventory.CraftRound | src/day14.rs:199-202 | the inventory becomes `Round`'s store |
| Reactions.Inventory.CraftUntilN | src/day14.rs:188-206 | within budget, the store is what the kept rounds make, the result is their sum, and one more round overshoots; over budget from the start, nothing changes and the result is negative |

## Left out

- Day 10, `main.rs`, and every driver that only wires threads and channels together: `threaded_phase_setter`, `threaded_feedback_loop_phase_combinations` and `phase_setter_feedback_loop` (day 7), `run_computer` (days 9 and 11), and `run_computer_with_ruscii` (day 13). Concurrency and terminal drawing are outside the model.
- `user_input` reading stdin (day 5) is a parameter: the values those lines parse to. A line that fails to parse is represented by the end of the list, so the next Input panics.
- `save_canvas`, `display`, `get_unused_ingredients` and the `eprintln!`/`println!` calls are file or console output, or plain getters and clones.
- `full_steps_energy_period`, `full_steps_periods`, `calculate_current_total_energy` and `calculate_repeating_index` (day 12) are alternative period searches the core does not use.
- The commented-out `calculate_required_ore_for_recipe` (day 14) is not code.
- Intcode.ChannelOutcome: a `try_send` refused with `TrySendError::Full` discards the output and only logs it (day7.rs:177-181, day9.rs:120-124, day13.rs:150). The channels are bounded (`sync_channel(5)`, `sync_channel(10)` and `sync_channel(100)`, at day7.rs:241-245, day9.rs:183-184 and day13.rs:302-303). The model delivers every output to a live receiver.
- Intcode.ChannelOutcome: `recv().expect` panics once the sending end is dropped (day7.rs:171, day9.rs:113, day13.rs:143). The model has no sender state: a run with no value left stops as `AwaitingInput` (the caller "waits"), never as a panic.
- Arcade.Computer.Run: whether the receiver is gone (`consumerGone`) is fixed for the whole run. A receiver dropped mid-run, as in the feedback loop, is not modelled.
- Intcode.Run: every interpreter run is bounded by `fuel`, because the source loops may never end. The `Exhausted` status has no counterpart in the source.
- Integer widths are unbounded throughout: the model has no overflow of `i32` (days 5, 7, 12), `i64` (days 9, 13, 14), `u32` (days 2, 4) or `u128` (`lcm`, day12.rs:292). Where the source parses a number, the type's range is modelled (`Text.ParseInt`).
- Image.SplitIntoLayers cuts the image into characters, where the source's `len` and `split_off` count UTF-8 bytes. The two agree on the digit strings the puzzle gives. On a non-ASCII image the source's layers have `m * n` bytes, and `split_off` panics at a position inside a character. The model does not capture that.
- Image.SplitIntoLayers, Image.FindSmallest0Mult12 and Image.AssembleImage require `m * n > 0 || image == []`: with a zero layer size and a non-empty image the source loops forever.
- OrbitCount.CountOrbits requires `Ranked`, `Tree` and `NoSeparator`: it covers rooted, tree-shaped orbit maps, as the puzzle defines them. The source also ends on other maps, because a name is pushed only when `seen_set.insert` succeeds (day6.rs:119-123). On a map with a cycle or with an orbiter shared by two centres, it records the depth at which each name is first discovered and skips the repeats. The model does not capture those depths. A cycle with no root panics in `find_leftmost_com(..).unwrap()` (day6.rs:77). A name spelled like the level marker `---===---` confuses the source's stack.
- OrbitRoutes.RecFindAncestors requires `Ranked`, which excludes every cycle in the map. Only a cycle reachable from the start without passing through the target makes the source recurse until the stack overflows. On a map with an unreached cycle the source returns a result the model does not describe.
- OrbitRoutes.FindClosestAncestor and OrbitRoutes.FindNumberOfJumps inherit `Ranked` from `RecFindAncestors`, with the same gap.
- Reactions.Inventory.RequestItem requires `Ranked` (so do `GatherIngredients`, `CraftRound` and `CraftUntilN`), which excludes every cycle in the recipe book. Only a cycle the request actually reaches makes the source recurse until the stack overflows. A book whose cycle the request never reaches is handled by the source and not described by the model.
- Reactions.RequestCovers: the lower bounds hold for a `Sane` book (positive amounts). The exact new state in `RequestItem` holds for every book.
- Reactions.Inventory.CraftUntilN takes `fuel`, a bound on the loop's turns: the source loops forever when the ORE used never exceeds the budget. `None` stands both for a panic (no recipe, no "FUEL" entry, division by zero) and for running out of turns.
- The state of an object after a panic is not modelled: a method that panics reports it, and its later state is unspecified (the Rust thread is gone).
- Text.IsSpace: `trim` strips ASCII whitespace only, while Rust's `trim` strips Unicode whitespace.
- Wires.ParseMove: a first character outside ASCII gives `Err`, where the source's `split_at(1)` panics on a non-character boundary.
- Periods.RecordPositions: the velocity histories `calculate_repetition_period` collects are never read, so they are not recorded. The duplicate `find_pattern` calls (day12.rs:339-367) compute the same lengths once.
- Arcade.Computer.Run works on the registers of a copy and writes them back. `GameState.GetPixels` returns a copy of the screen, so aliasing of the Rust clones is not modelled.
