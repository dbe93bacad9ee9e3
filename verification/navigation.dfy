/**
 * The bug-style navigation step hunt(goalDir) as a state transition over
 * the tracing flag, the facing and the location, and what repeated steps
 * achieve: heading straight for a goal closes in on it, and a robot tracing
 * round an obstacle tries every compass point within eight calls.
 */
module Navigation {
  import opened Geometry

  /** What hunt reads and changes: isTracing and the robot's facing and location. */
  datatype Nav = Nav(tracing: bool, facing: Direction, location: Location)

  /**
   * One call of hunt(goal), with canMove the host's movement query.
   * Not tracing: turn to the goal if not facing it; else step forward if
   * possible; else start tracing. Tracing: if the goal direction is open,
   * stop tracing and face it; else step forward if possible; else turn one
   * step clockwise.
   */
  function HuntStep(n: Nav, goal: Direction, canMove: (Location, Direction) -> bool): (r: Nav)
    // a call moves at most one square, only forward, only where the host allows it
    ensures r.location == n.location
         || (r.location == n.location.Add(n.facing) && canMove(n.location, n.facing)
             && r.facing == n.facing && r.tracing == n.tracing)
    // tracing starts only when blocked while already facing the goal
    ensures r.tracing && !n.tracing ==> n.facing == goal && !canMove(n.location, goal)
                                         && r.facing == n.facing && r.location == n.location
    // tracing stops only when the goal direction is open, and then faces it
    ensures !r.tracing && n.tracing ==> canMove(n.location, goal) && r.facing == goal
                                         && r.location == n.location
    // a turn is either towards the goal or, while tracing, one step clockwise
    ensures r.facing != n.facing ==> r.facing == goal || (n.tracing && r.facing == n.facing.RotateRight())
    // not tracing and facing elsewhere: turn to the goal without moving
    ensures !n.tracing && n.facing != goal ==> !r.tracing && r.facing == goal && r.location == n.location
    // not tracing and facing the goal: step towards it if open, else start tracing on the spot
    ensures !n.tracing && n.facing == goal ==>
              && r.facing == goal
              && (r.tracing <==> !canMove(n.location, goal))
              && r.location == (if canMove(n.location, goal) then n.location.Add(goal) else n.location)
    // tracing: stay tracing exactly while the goal direction is blocked
    ensures n.tracing ==> (r.tracing <==> !canMove(n.location, goal))
    // tracing and blocked: step along the facing if open, else turn clockwise on the spot
    ensures n.tracing && !canMove(n.location, goal) ==>
              if canMove(n.location, n.facing) then r.location == n.location.Add(n.facing) && r.facing == n.facing
              else r.location == n.location && r.facing == n.facing.RotateRight()
  {
    if !n.tracing then
      if n.facing != goal then n.(facing := goal)
      else if canMove(n.location, goal) then n.(location := n.location.Add(goal))
      else n.(tracing := true)
    else
      if canMove(n.location, goal) then n.(tracing := false, facing := goal)
      else if canMove(n.location, n.facing) then n.(location := n.location.Add(n.facing))
      else n.(facing := n.facing.RotateRight())
  }

  /** k successive calls of hunt(goal) against an unchanging host. */
  function HuntRun(n: Nav, goal: Direction, canMove: (Location, Direction) -> bool, k: nat): Nav {
    if k == 0 then n else HuntStep(HuntRun(n, goal, canMove, k - 1), goal, canMove)
  }

  /** Heading straight for a target along calcDirection, an unblocked step
      brings the robot one step closer to it. */
  lemma HuntApproachesTarget(n: Nav, target: Location, canMove: (Location, Direction) -> bool)
    requires !n.tracing && n.location != target
    requires n.facing == CalcDirection(n.location, target)
    requires canMove(n.location, n.facing)
    ensures var r := HuntStep(n, n.facing, canMove);
            !r.tracing && Steps(r.location, target) == Steps(n.location, target) - 1
  {
    CalcDirectionApproaches(n.location, target);
  }

  /** While the goal and every facing tried so far are blocked, tracing only
      turns clockwise on the spot. */
  lemma {:induction false} BlockedTraceRotates(n: Nav, goal: Direction, canMove: (Location, Direction) -> bool, k: nat)
    requires n.tracing && !canMove(n.location, goal)
    requires forall j :: 0 <= j < k ==> !canMove(n.location, RotateN(n.facing, j))
    ensures HuntRun(n, goal, canMove, k) == Nav(true, RotateN(n.facing, k), n.location)
  {
    if k > 0 {
      BlockedTraceRotates(n, goal, canMove, k - 1);
    }
  }

  /**
   * Obstacle liveness: a tracing robot with some open compass direction
   * around it, on a fixed map, within eight calls either steps to a new
   * square or leaves tracing.
   */
  lemma TraceFindsOpening(n: Nav, goal: Direction, canMove: (Location, Direction) -> bool)
    requires n.tracing && n.facing.IsCompass()
    requires exists d: Direction :: d.IsCompass() && canMove(n.location, d)
    ensures exists k :: 1 <= k <= 8 &&
              (!HuntRun(n, goal, canMove, k).tracing || HuntRun(n, goal, canMove, k).location != n.location)
  {
    if canMove(n.location, goal) {
      assert !HuntRun(n, goal, canMove, 1).tracing;
    } else {
      var open: Direction :| open.IsCompass() && canMove(n.location, open);
      RotationReaches(n.facing, open);
      var k0 :| 0 <= k0 < 8 && RotateN(n.facing, k0) == open;
      var j := 0;
      while !canMove(n.location, RotateN(n.facing, j))
        invariant 0 <= j <= k0
        invariant forall i :: 0 <= i < j ==> !canMove(n.location, RotateN(n.facing, i))
        decreases k0 - j
      {
        j := j + 1;
      }
      BlockedTraceRotates(n, goal, canMove, j);
      RotateNIndex(n.facing, j);
      var d := RotateN(n.facing, j);
      assert HuntRun(n, goal, canMove, j + 1).location == n.location.Add(d);
      assert n.location.Add(d) != n.location by {
        assert d.Dx() != 0 || d.Dy() != 0;
      }
    }
  }
}
