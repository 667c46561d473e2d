/**
 * Day 11: the hull-painting robot's canvas. A 500 by 500 grid of '.' (black)
 * and '#' (white), the robot's location on it, the direction its arrow
 * points in, and the set of cells it has painted white. Colours and
 * rotations arrive from an Intcode program; here they are plain arguments.
 *
 * Locations are pairs of `usize` in the source: moving below 0 overflows,
 * and painting a cell outside the grid indexes past the end of a vector.
 * Both make the program panic, reported here by a `false` result.
 */
module Painter {
  import opened Outcomes

  const Up: char := '^'
  const Down: char := 'v'
  const Left: char := '<'
  const Right: char := '>'

  /** Side length of the square grid. */
  const Size: nat := 500

  /** The four directions the arrow can point in. */
  predicate IsDirection(d: char)
  {
    d == Up || d == Down || d == Left || d == Right
  }

  /**
   * The direction after turning `d` by `rotation`: 0 turns left
   * (counter-clockwise), 1 turns right (clockwise). Another rotation, or a
   * character that is no direction, is rejected.
   */
  function Turn(d: char, rotation: nat): Option<char>
  {
    if rotation > 1 then None
    else if d == Up then Some(if rotation == 0 then Left else Right)
    else if d == Down then Some(if rotation == 0 then Right else Left)
    else if d == Left then Some(if rotation == 0 then Down else Up)
    else if d == Right then Some(if rotation == 0 then Up else Down)
    else None
  }

  /** A compass reading: how many clockwise quarter turns from Up. */
  function Heading(d: char): nat
    requires IsDirection(d)
  {
    if d == Up then 0 else if d == Right then 1 else if d == Down then 2 else 3
  }

  /** The direction with the given compass reading. */
  function FromHeading(h: nat): (d: char)
    requires h < 4
    ensures IsDirection(d) && Heading(d) == h
  {
    if h == 0 then Up else if h == 1 then Right else if h == 2 then Down else Left
  }

  /**
   * Rotation 1 adds a clockwise quarter turn and rotation 0 takes one away;
   * any other rotation or direction is rejected.
   */
  lemma TurnIsQuarterTurn(d: char, rotation: nat)
    ensures Turn(d, rotation).Some? <==> IsDirection(d) && rotation <= 1
    ensures IsDirection(d) && rotation == 1 ==> Turn(d, rotation) == Some(FromHeading((Heading(d) + 1) % 4))
    ensures IsDirection(d) && rotation == 0 ==> Turn(d, rotation) == Some(FromHeading((Heading(d) + 3) % 4))
  {
  }

  /** Turning left then right, or right then left, gives back the direction. */
  lemma TurnBack(d: char, rotation: nat)
    requires IsDirection(d) && rotation <= 1
    ensures var t := Turn(d, rotation).value; Turn(t, 1 - rotation) == Some(d)
  {
  }

  /** Four equal turns point the arrow where it started. */
  lemma FourTurns(d: char, rotation: nat)
    requires IsDirection(d) && rotation <= 1
    ensures var t1 := Turn(d, rotation).value;
      var t2 := Turn(t1, rotation).value;
      var t3 := Turn(t2, rotation).value;
      && t1 != d && t2 != d && t3 != d
      && Turn(t3, rotation) == Some(d)
  {
  }

  /**
   * The location after one step in direction `d`: Up takes one from the
   * second coordinate, Down adds one to it, Left takes one from the first,
   * Right adds one to it. `None` where a coordinate would go below 0; a
   * character that is no direction leaves the location where it is.
   */
  function Moved(location: (nat, nat), d: char): Option<(nat, nat)>
  {
    if d == Up then (if location.1 == 0 then None else Some((location.0, location.1 - 1)))
    else if d == Down then Some((location.0, location.1 + 1))
    else if d == Left then (if location.0 == 0 then None else Some((location.0 - 1, location.1)))
    else if d == Right then Some((location.0 + 1, location.1))
    else Some(location)
  }

  /** The unit vector of a direction, in the source's coordinates. */
  function Offset(d: char): (int, int)
    requires IsDirection(d)
  {
    if d == Up then (0, -1) else if d == Down then (0, 1) else if d == Left then (-1, 0) else (1, 0)
  }

  /**
   * A step in a direction moves exactly one cell along its unit vector,
   * failing only where that would leave the non-negative quarter plane.
   */
  lemma MoveIsUnitStep(location: (nat, nat), d: char)
    requires IsDirection(d)
    ensures Moved(location, d).Some? <==> location.0 + Offset(d).0 >= 0 && location.1 + Offset(d).1 >= 0
    ensures Moved(location, d).Some? ==>
      && Moved(location, d).value.0 == location.0 + Offset(d).0
      && Moved(location, d).value.1 == location.1 + Offset(d).1
      && Abs(Offset(d).0) + Abs(Offset(d).1) == 1
  {
  }

  /** Turning twice the same way reverses the direction, and a step back undoes a step. */
  lemma StepBack(location: (nat, nat), d: char, rotation: nat)
    requires IsDirection(d) && rotation <= 1 && Moved(location, d).Some?
    ensures var back := Turn(Turn(d, rotation).value, rotation).value;
      Moved(Moved(location, d).value, back) == Some(location)
  {
  }

  /** What a colour code paints: 0 is '.', 1 is '#'; other codes are rejected. */
  function Colour(code: nat): Option<char>
  {
    if code == 0 then Some('.') else if code == 1 then Some('#') else None
  }

  class Canvas {
    var prevDirection: char
    var location: (nat, nat)
    var pixels: array2<char>
    var paintedAreas: set<(nat, nat)>

    /** The grid is `Size` by `Size` and the arrow points in one of the four directions. */
    ghost predicate Valid()
      reads this
    {
      pixels.Length0 == Size && pixels.Length1 == Size && IsDirection(prevDirection)
    }

    /** An all-'.' grid whose centre cell (250, 250) is '#', the arrow pointing up and nothing painted yet. */
    constructor ()
      ensures Valid() && fresh(pixels)
      ensures prevDirection == Up && location == (250, 250) && paintedAreas == {}
      ensures forall i, j | 0 <= i < Size && 0 <= j < Size ::
        pixels[i, j] == if i == 250 && j == 250 then '#' else '.'
    {
      prevDirection := Up;
      location := (250, 250);
      paintedAreas := {};
      pixels := new char[Size, Size]((i, j) => '.');
      new;
      pixels[250, 250] := '#';
    }

    /**
     * `paint_canvas`: paints the current cell '.' for colour 0 and '#' for
     * colour 1, recording a '#' cell in `paintedAreas`. Another colour only
     * logs an error. Painting outside the grid panics (`ok` false).
     */
    method PaintCanvas(color: nat) returns (ok: bool)
      requires Valid()
      modifies this, pixels
      ensures Valid() && pixels == old(pixels)
      ensures prevDirection == old(prevDirection) && location == old(location)
      ensures Colour(color).None? ==> ok && unchanged(pixels) && paintedAreas == old(paintedAreas)
      ensures Colour(color).Some? ==> (ok <==> location.0 < Size && location.1 < Size)
      ensures !ok ==> unchanged(pixels) && paintedAreas == old(paintedAreas)
      ensures ok && Colour(color).Some? ==>
        && pixels[location.0, location.1] == Colour(color).value
        && (forall i, j | 0 <= i < Size && 0 <= j < Size && (i, j) != location :: pixels[i, j] == old(pixels[i, j]))
        && paintedAreas == if color == 1 then old(paintedAreas) + {location} else old(paintedAreas)
    {
      var colour := Colour(color);
      if colour.None? {
        return true;
      }
      if location.0 >= Size || location.1 >= Size {
        return false;
      }
      pixels[location.0, location.1] := colour.value;
      if colour.value == '#' {
        paintedAreas := paintedAreas + {location};
      }
      return true;
    }

    /**
     * `move_location`: one step in direction `d` (see `Moved`); a step
     * below coordinate 0 panics (`ok` false) and leaves the location.
     */
    method MoveLocation(d: char) returns (ok: bool)
      modifies this
      ensures ok <==> Moved(old(location), d).Some?
      ensures location == if ok then Moved(old(location), d).value else old(location)
      ensures prevDirection == old(prevDirection) && pixels == old(pixels) && paintedAreas == old(paintedAreas)
    {
      if d == Up {
        if location.1 == 0 {
          return false;
        }
        location := (location.0, location.1 - 1);
      } else if d == Down {
        location := (location.0, location.1 + 1);
      } else if d == Left {
        if location.0 == 0 {
          return false;
        }
        location := (location.0 - 1, location.1);
      } else if d == Right {
        location := (location.0 + 1, location.1);
      }
      return true;
    }

    /**
     * `move_arrow`: turns the arrow by `rotation` and steps once in the new
     * direction. Any rotation but 0 and 1 only logs an error and changes
     * nothing.
     */
    method MoveArrow(rotation: nat) returns (ok: bool)
      requires Valid()
      modifies this
      ensures Valid() && pixels == old(pixels) && paintedAreas == old(paintedAreas)
      ensures rotation > 1 ==> ok && prevDirection == old(prevDirection) && location == old(location)
      ensures rotation <= 1 ==>
        && prevDirection == Turn(old(prevDirection), rotation).value
        && (ok <==> Moved(old(location), prevDirection).Some?)
        && location == if ok then Moved(old(location), prevDirection).value else old(location)
    {
      var turned := Turn(prevDirection, rotation);
      if turned.None? {
        return true;
      }
      prevDirection := turned.value;
      ok := MoveLocation(prevDirection);
    }
  }
}
