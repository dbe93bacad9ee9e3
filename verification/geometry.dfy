/**
 * Grid geometry as the robot controller sees it: the host's compass
 * directions, map locations, and the sign-based quantisation of a
 * displacement onto eight directions (calcDirection).
 *
 * Coordinates follow the host: x grows eastwards and y grows southwards,
 * so NORTH is one step of y - 1.
 */
module Geometry {

  /** The values of the host's Direction the controller uses: the eight
      compass points, clockwise from North, and NONE. */
  datatype Direction =
    | North | NorthEast | East | SouthEast | South | SouthWest | West | NorthWest
    | NoDirection
  {
    predicate IsCompass() {
      !NoDirection?
    }

    /** Column offset of one step in this direction (east is +1). */
    function Dx(): int {
      match this
      case NorthEast | East | SouthEast => 1
      case SouthWest | West | NorthWest => -1
      case _ => 0
    }

    /** Row offset of one step in this direction (south is +1). */
    function Dy(): int {
      match this
      case SouthEast | South | SouthWest => 1
      case NorthWest | North | NorthEast => -1
      case _ => 0
    }

    /** Position on the compass card, clockwise from North = 0. */
    function Index(): (i: nat)
      requires IsCompass()
      ensures i < 8
    {
      match this
      case North => 0
      case NorthEast => 1
      case East => 2
      case SouthEast => 3
      case South => 4
      case SouthWest => 5
      case West => 6
      case NorthWest => 7
    }

    /** rotateRight(): one step (45 degrees) clockwise. NONE is taken to
        stay NONE. */
    function RotateRight(): (r: Direction)
      ensures IsCompass() ==> r.IsCompass() && r.Index() == (Index() + 1) % 8
      ensures !IsCompass() ==> r == this
    {
      match this
      case North => NorthEast
      case NorthEast => East
      case East => SouthEast
      case SouthEast => South
      case South => SouthWest
      case SouthWest => West
      case West => NorthWest
      case NorthWest => North
      case NoDirection => NoDirection
    }

    /** toString(): the name of the enum constant. */
    function Name(): string {
      match this
      case North => "NORTH"
      case NorthEast => "NORTH_EAST"
      case East => "EAST"
      case SouthEast => "SOUTH_EAST"
      case South => "SOUTH"
      case SouthWest => "SOUTH_WEST"
      case West => "WEST"
      case NorthWest => "NORTH_WEST"
      case NoDirection => "NONE"
    }
  }

  /** A map location (MapLocation). */
  datatype Location = Location(x: int, y: int) {
    /** add(d): the neighbouring location one step in direction d. */
    function Add(d: Direction): Location {
      Location(x + d.Dx(), y + d.Dy())
    }
  }

  function Sign(n: int): int {
    if n > 0 then 1 else if n < 0 then -1 else 0
  }

  function Abs(n: int): nat {
    if n < 0 then -n else n
  }

  /** Number of eight-way steps between two locations (Chebyshev distance). */
  function Steps(a: Location, b: Location): nat {
    var dx, dy := Abs(b.x - a.x), Abs(b.y - a.y);
    if dx < dy then dy else dx
  }

  /**
   * calcDirection(goal) from the current location cur: the x-part of the
   * answer is the sign of goal.x - cur.x, the y-part the sign of
   * goal.y - cur.y, and the answer is NONE exactly when cur is the goal.
   */
  function CalcDirection(cur: Location, goal: Location): (r: Direction)
    ensures r.Dx() == Sign(goal.x - cur.x) && r.Dy() == Sign(goal.y - cur.y)
    ensures r == NoDirection <==> cur == goal
  {
    if cur.x < goal.x then
      if cur.y < goal.y then SouthEast
      else if cur.y > goal.y then NorthEast
      else East
    else if cur.x > goal.x then
      if cur.y < goal.y then SouthWest
      else if cur.y > goal.y then NorthWest
      else West
    else
      if cur.y < goal.y then South
      else if cur.y > goal.y then North
      else NoDirection
  }

  /** A direction is determined by its step: no two directions move alike. */
  lemma StepDeterminesDirection(a: Direction, b: Direction)
    requires a.Dx() == b.Dx() && a.Dy() == b.Dy()
    ensures a == b
  {
  }

  /** One step along calcDirection brings the robot one step closer to the goal. */
  lemma CalcDirectionApproaches(cur: Location, goal: Location)
    requires cur != goal
    ensures Steps(cur.Add(CalcDirection(cur, goal)), goal) == Steps(cur, goal) - 1
  {
  }

  /** k clockwise steps from d. */
  function RotateN(d: Direction, k: nat): Direction {
    if k == 0 then d else RotateN(d, k - 1).RotateRight()
  }

  lemma {:induction false} RotateNIndex(d: Direction, k: nat)
    requires d.IsCompass()
    ensures RotateN(d, k).IsCompass() && RotateN(d, k).Index() == (d.Index() + k) % 8
  {
    if k > 0 {
      RotateNIndex(d, k - 1);
    }
  }

  /** Eight clockwise steps come back to the start. */
  lemma RotateEightReturns(d: Direction)
    requires d.IsCompass()
    ensures RotateN(d, 8) == d
  {
    RotateNIndex(d, 8);
  }

  /** Rotating clockwise from any compass point reaches every compass point
      within seven steps. */
  lemma RotationReaches(from: Direction, to: Direction)
    requires from.IsCompass() && to.IsCompass()
    ensures exists k :: 0 <= k < 8 && RotateN(from, k) == to
  {
    var k := if to.Index() >= from.Index() then to.Index() - from.Index()
         else to.Index() + 8 - from.Index();
    RotateNIndex(from, k);
  }
}
