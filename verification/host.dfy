/**
 * The abstract host the controller runs against: the world's value types
 * (teams, robot types, the snapshot of a sensed robot) and the
 * RobotController, reduced to the queries and actions the core uses.
 *
 * The queries are fixed for the duration of one call into the core:
 * whether the robot can move from a location in a direction, and whether a
 * ground robot stands on a location. The actions are recorded: turning and
 * moving change the robot's facing and location at once, broadcasts and
 * energon transfers are appended to logs.
 */
module Host {
  import opened Geometry
  import opened Messages

  datatype Team = TeamA | TeamB | Neutral

  /** The robot types the controller distinguishes; every other type the
      host may report (towers included) is Tower or Other here. */
  datatype RobotType = Archon | Soldier | Sniper | Mortar | Scout | Bomber | Tower | Other

  /** Whether a robot flies or walks (Robot.getRobotLevel()). */
  datatype RobotLevel = OnGround | InAir

  /** A RobotInfo snapshot of a sensed robot. Energon amounts are exact reals. */
  datatype RobotInfo = RobotInfo(
    team: Team,
    kind: RobotType,
    location: Location,
    energonLevel: real,
    eventualEnergon: real,
    maxEnergon: real)

  /** One call of transferEnergon(amount, location, level). */
  datatype Transfer = Transfer(amount: real, target: Location, level: RobotLevel)

  class RobotController {
    /** getRobot().getID() and getTeam(). */
    const id: int
    const team: Team
    /** canMove(d) when standing on a location. */
    const canMove: (Location, Direction) -> bool
    /** senseGroundRobotAtLocation(loc) != null. */
    const occupied: Location -> bool

    var location: Location
    var facing: Direction
    var energon: real
    /** Every message broadcast so far, oldest first. */
    var sent: seq<Message>
    /** Every energon transfer so far, oldest first. */
    var transfers: seq<Transfer>

    constructor (id: int, team: Team, location: Location, facing: Direction, energon: real,
                 canMove: (Location, Direction) -> bool, occupied: Location -> bool)
      ensures this.id == id && this.team == team && this.location == location
      ensures this.facing == facing && this.energon == energon
      ensures this.canMove == canMove && this.occupied == occupied
      ensures sent == [] && transfers == []
    {
      this.id := id;
      this.team := team;
      this.location := location;
      this.facing := facing;
      this.energon := energon;
      this.canMove := canMove;
      this.occupied := occupied;
      sent := [];
      transfers := [];
    }

    /** canMove(d) from where the robot stands now. */
    predicate CanMove(d: Direction)
      reads this
    {
      canMove(location, d)
    }

    /** The neighbouring square in direction d holds no ground robot and can
        be moved into. */
    predicate CanSpawnInto(d: Direction)
      reads this
    {
      !occupied(location.Add(d)) && canMove(location, d)
    }

    /** setDirection(d) */
    method SetDirection(d: Direction)
      modifies this`facing
      ensures facing == d
    {
      facing := d;
    }

    /** moveForward(): one step along the current facing. */
    method MoveForward()
      modifies this`location
      ensures location == old(location).Add(facing)
    {
      location := location.Add(facing);
    }

    /** broadcast(m) */
    method Broadcast(m: Message)
      modifies this`sent
      ensures sent == old(sent) + [m]
    {
      sent := sent + [m];
    }

    /** transferEnergon(amount, target, level): the amount leaves this robot. */
    method TransferEnergon(amount: real, target: Location, level: RobotLevel)
      modifies this`energon, this`transfers
      ensures energon == old(energon) - amount
      ensures transfers == old(transfers) + [Transfer(amount, target, level)]
    {
      energon := energon - amount;
      transfers := transfers + [Transfer(amount, target, level)];
    }
  }
}
