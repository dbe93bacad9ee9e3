# Battlecode archon controller: a Dafny model

This project models the decision core of `teams/team000/RobotPlayer.java`,
a robot controller for the Battlecode grid game. An archon is a commander
unit. The modelled core covers these pieces:

- **Leader election** (`designateLeader`). Archons read "establishLeader"
  broadcasts. Each archon either follows the last announced leader, adding
  its own ID to the squad roster, or announces itself as a leader.
- **The leader's loop** (`archonLeader`). In each pass the leader first
  scans the messages it has received:
  - its own establish-leader message fills its `commanders` array;
  - attack reports from commanders set the target and the finder;
  - the first report whose sender names itself as finder locks out every
    later report in the same pass.

  The leader then chooses a directive:
  - during the start of the game, spawn before round 70 and idle after it;
    the start of the game ends at round 150;
  - afterwards, spawn while fewer than four troops stand nearby, otherwise
    attack.

  It broadcasts the result as a "leaderMsg".
- **Navigation.** `calcDirection` quantises a displacement onto the eight
  compass points. Note that y grows southwards. `hunt` is a bug-style step
  that turns, moves forward, or traces round an obstacle clockwise.
  `msgDirection` decodes a broadcast direction name.
- **Bookkeeping.** This covers squad counting (`countSquad`, `resetCount`,
  `troopNum`), `isCommander`, `findLeaderMessage`, `spaceToSpawn`, and
  healing (`needsHealing`, `archonHeal`).

Pure decisions are modelled as functions over datatypes, in the modules
`Geometry`, `Messages`, `Navigation`, `Election`, `Arbitration`, `Squad`,
`Directive` and `Healing`. The controller's state is modelled in
`Player.RobotPlayer`:

- the tracing flag;
- `following`, `squadID` and `leader`;
- the six squad counters.

The leader's loop-carried locals live in `Player.LeaderState`: the
`commanders` array, `finder` and `startOfGame`. The host robot is
`Host.RobotController`, which holds the location, facing, energon, the
messages sent and the energon transferred. Each imperative method is proved
equal to its specification function, and the properties are proved about
those functions.

Java runtime exceptions inside the core are modelled:

- a null `strings[0]` is an unreadable label;
- an array that is too short is an out-of-bounds read;
- the method stops at the failing step and keeps the assignments it had
  already made, as the Java `catch` does.

The scan's precedence rule is the one the code implements:

- the lock (`ignoreOtherCommanders`) lives for one pass of the leader's
  loop only;
- each commander report before the lock overwrites `finder` with the
  finder the report names.

## Model

| member | source | states |
|---|---|---|
| Geometry.CalcDirection | teams/team000/RobotPlayer.java:123-151 | the x- and y-parts of the answer are the signs of the displacement (south is y+1); NONE exactly when already at the goal |
| Geometry.CalcDirectionApproaches | teams/team000/RobotPlayer.java:123-151 | one step along calcDirection lowers the eight-way distance to the goal by exactly one |
| Geometry.StepDeterminesDirection | teams/team000/RobotPlayer.java:123-151 | no two directions have the same step, so the sign pair determines calcDirection's answer |
| Geometry.Direction.RotateRight | teams/team000/RobotPlayer.java:110 | rotateRight moves one place clockwise on the compass card |
| Geometry.RotateEightReturns | teams/team000/RobotPlayer.java:110 | eight clockwise turns bring the facing back to the start |
| Geometry.RotationReaches | teams/team000/RobotPlayer.java:110 | from any compass point, clockwise turning reaches every compass point within seven turns |
| Messages.MsgDirection | teams/team000/RobotPlayer.java:1192-1215 | an answer is a compass point whose name equals the text ignoring case; null text, or text matching no compass name, gives null; NONE is never answered |
| Messages.DirectionNameRoundTrip | teams/team000/RobotPlayer.java:1192-1215 | every compass point's name, in any mix of case, decodes back to that compass point |
| Messages.NamesDiffer | teams/team000/RobotPlayer.java:1192-1215 | no two compass names are equal ignoring case, so the order of the tests does not matter |
| Messages.NoneNameIsNotDecoded | teams/team000/RobotPlayer.java:1192-1215 | the name "NONE" decodes to null |
| Messages.ReadableCount | teams/team000/RobotPlayer.java:397-401 | the length of the leading run of messages whose ints[0] can be read; the next message has an empty ints array |
| Navigation.HuntStep | teams/team000/RobotPlayer.java:91-117 | each case's outcome. Not tracing and facing elsewhere: the robot turns to the goal without moving. Not tracing and facing the goal: it steps forward if that is open, else it starts tracing on the spot. Tracing: it goes on tracing exactly while the goal is blocked, and on leaving it faces the goal. Tracing and blocked: it steps along its facing if that is open, else it turns one step clockwise. In every case it moves at most one square, forward and only where canMove allows |
| Navigation.HuntApproachesTarget | teams/team000/RobotPlayer.java:91-117 | heading straight along calcDirection with the way open, a hunt step comes one step closer to the target |
| Navigation.BlockedTraceRotates | teams/team000/RobotPlayer.java:102-111 | while the goal and every facing tried are blocked, k tracing calls turn k times clockwise on the spot |
| Navigation.TraceFindsOpening | teams/team000/RobotPlayer.java:102-111 | a tracing robot with any open neighbouring square moves or leaves tracing within eight calls |
| Player.RobotPlayer.Hunt | teams/team000/RobotPlayer.java:91-117 | the tracing flag, facing and location afterwards are HuntStep of those before |
| Election.LastEstablish | teams/team000/RobotPlayer.java:604-611 | the last establish-leader message heard, and None exactly when there is none |
| Election.Announce | teams/team000/RobotPlayer.java:630-645 | a new leader's message is labelled establishLeader and holds ints [1, id, 0, 0, 0, squad] |
| Election.Joined | teams/team000/RobotPlayer.java:622-627 | a joiner raises the count by one and writes its ID at the new count; the other ints and the strings are unchanged |
| Election.ElectionSettles | teams/team000/RobotPlayer.java:598-653 | an archon without a role ends up leading or following, never both. It leads exactly when it heard no announcement, or the last one has no room. A leader takes squad 2 if it heard an announcement and squad 1 otherwise, and broadcasts Announce. A follower takes the leader and squad from the last announcement that has room. Exactly one well-formed message goes out |
| Election.SettledArchonUnchanged | teams/team000/RobotPlayer.java:615-647 | an archon that already leads or follows changes nothing and sends nothing |
| Election.Joins | teams/team000/RobotPlayer.java:622-627 | successive joins keep the message well formed and raise the count by the number of joiners |
| Election.RosterAfterJoins | teams/team000/RobotPlayer.java:618-645 | after up to three joins a fresh announcement reads [1 + joiners, leader, joiner IDs in order, zeros, squad] |
| Election.RosterSlots | teams/team000/RobotPlayer.java:618-645 | ints[2..4] of the joined message are the joiners' IDs, zero-padded, and ints[1] is the leader |
| Player.RobotPlayer.DesignateLeader | teams/team000/RobotPlayer.java:598-653 | leader, following, squadID and the messages sent afterwards are those Election.Designate gives, including the exception paths; Election.Designate is the reference definition of designateLeader, and ElectionSettles and SettledArchonUnchanged state what it does |
| Arbitration.CopyRoster | teams/team000/RobotPlayer.java:682-684 | commanders[k] becomes ints[k+2] for the slots the message has; a short message throws, keeping the copies made |
| Arbitration.ScanStep | teams/team000/RobotPlayer.java:678-699 | only the leader's own roster message changes commanders; a message of either shape the team broadcasts (a well-formed establish-leader message, or a leader message with an order word, two ints and two locations) never throws; only a commander's attack report with a target, before the lock, changes the target, finder or lock; the lock is set only by a report whose sender is the finder it names. Conversely, the leader's own roster message is copied as CopyRoster says, and an unlocked commander report with a readable finder sets target and finder, locking the pass exactly when its sender is that finder |
| Arbitration.ScanAll | teams/team000/RobotPlayer.java:676-701 | the scan keeps three commanders (ScanAllAppend states that it stops at the first exception) |
| Arbitration.ProtocolScanCompletes | teams/team000/RobotPlayer.java:676-701 | a scan over messages of the two shapes the team broadcasts (well-formed establish-leader messages and leader messages) never throws and runs to its end, so with ArchonLeaderTick the leader broadcasts its order on every such pass |
| Directive.LeaderMessageIsShaped | teams/team000/RobotPlayer.java:703-779 | every leader message the leader builds has the shape the leaders' scan passes over without an exception |
| Arbitration.ScanAllAppend | teams/team000/RobotPlayer.java:676-701 | scanning a + b is scanning a and then, unless a threw, b |
| Arbitration.LockedTargetStays | teams/team000/RobotPlayer.java:691-697 | once the pass is locked, later messages change neither target nor finder |
| Arbitration.FinderKeepsPriority | teams/team000/RobotPlayer.java:686-697 | the first unlocked report whose sender names itself as finder decides the pass's target and finder, whatever messages follow |
| Arbitration.RosterCopied | teams/team000/RobotPlayer.java:680-684 | the leader's own full establish-leader message sets commanders to ints[2..4] and the scan goes on |
| Arbitration.LeaderLearnsRoster | teams/team000/RobotPlayer.java:618-645 | after archons join, the leader's own announcement fills commanders with the joiners' IDs in joining order, zero for empty slots |
| Player.RobotPlayer.IsCommander | teams/team000/RobotPlayer.java:798-802 | true exactly when the ID is in the commanders array |
| Player.RobotPlayer.ScanMessages | teams/team000/RobotPlayer.java:668-701 | the result, the commanders array and finder afterwards are ScanAll from the old commanders and finder, with no target and no lock |
| Squad.Count | teams/team000/RobotPlayer.java:1047-1068 | a count of robots of one team and type never exceeds the robots sensed |
| Squad.Troops | teams/team000/RobotPlayer.java:1077-1079 | the troops listed are sensed robots of the counting team and of a troop type |
| Squad.TroopsListsEveryTroop | teams/team000/RobotPlayer.java:1077-1079 | the troops listed are exactly the sensed robots of the counting team and of a troop type, each as often as it was sensed |
| Squad.Counted | teams/team000/RobotPlayer.java:1048-1069 | one robot raises troopNum by one exactly when it is a same-team troop, and archonNum by one exactly when it is a same-team archon |
| Squad.TallyAppend | teams/team000/RobotPlayer.java:1046-1068 | counting robot by robot agrees with counting each type over the whole list |
| Squad.TroopNumIsHeadcount | teams/team000/RobotPlayer.java:1077-1079 | after a count, troopNum is the number of same-team non-archon troops sensed; Squad.TroopNum is the reference definition of troopNum (the sum of the five troop counters) |
| Player.RobotPlayer.ResetCount | teams/team000/RobotPlayer.java:1028-1035 | all six counters are zero |
| Player.RobotPlayer.CountOne | teams/team000/RobotPlayer.java:1048-1069 | one loop pass changes the counters as Counted says |
| Player.RobotPlayer.CountSquad | teams/team000/RobotPlayer.java:1041-1075 | the counters afterwards are the per-type counts of the archon's team among the robots sensed |
| Player.RobotPlayer.FindLeaderMessage | teams/team000/RobotPlayer.java:391-408 | the last message, among those read before an exception, whose sender is the leader followed; null when none is |
| Player.RobotPlayer.SpaceToSpawn | teams/team000/RobotPlayer.java:1114-1157 | the first neighbour in the order N, S, E, W, NE, NW, SE, SW that is free and can be moved into; the archon's own square when none is |
| Healing.NeedsHealing | teams/team000/RobotPlayer.java:1012-1023 | a robot needs healing exactly when it lacks more than half its maximum energon; such a robot (with a non-negative maximum) has a positive deficit to fill, and a robot at or above its maximum never needs healing |
| Healing.TransferAmount | teams/team000/RobotPlayer.java:985-1010 | a transfer happens exactly when the archon holds over an eighth of an archon's maximum and the robot's eventual energon is below its type's maximum. The amount never exceeds the deficit, always leaves the upkeep, and is either the deficit or everything above the upkeep |
| Healing.HealingHelps | teams/team000/RobotPlayer.java:985-1023 | when the archon can spare the deficit, the robot is healed to its maximum and no longer needs healing; otherwise it still gains energon whenever the archon holds more than its upkeep |
| Player.RobotPlayer.ArchonHeal | teams/team000/RobotPlayer.java:985-1010 | energon and the transfers made change exactly by TransferAmount, or not at all |
| Directive.LeaderMessage | teams/team000/RobotPlayer.java:703-779 | the leader message is labelled leaderMsg and carries the order word, the leader's ID and number, and the leader's location and target; a compass heading it carries decodes with msgDirection back to that heading, and without a heading the heading slot is null, which a follower decodes as null |
| Directive.OrderNamesDiffer | teams/team000/RobotPlayer.java:711-767 | the words idle, spawn and attack differ |
| Directive.LeaderTurn | teams/team000/RobotPlayer.java:703-779 | the message always carries the label, the leader's ID and its location. The start of the game never returns once over. The leader moves only when attacking (after the start of the game, with a full squad) with no tower in sight and it may hunt, and then only towards the closest unknown tower; after the start, with a full squad, no tower in sight and leave to hunt, it does hunt that way |
| Directive.SquadTurn | teams/team000/RobotPlayer.java:726-779 | after the start of the game, the start flag stays off |
| Directive.AttackTurn | teams/team000/RobotPlayer.java:749-779 | an attack turn always orders attack. With a tower in sight, the leader names itself as finder, passes on the tower's location unless the tower is its own team's, and does not hunt. Without one, it relays the scan's target, and the finder when there is a target, and it hunts exactly when it may |
| Directive.StartOfGameOrders | teams/team000/RobotPlayer.java:717-724 | in the start of the game: spawn iff the round is before 70, idle iff it is 70 or later, the start goes on iff the round is before 150, and no hunting |
| Directive.SpawnUntilSquadFull | teams/team000/RobotPlayer.java:726-756 | after the start: spawn iff fewer than 4 same-team troops are nearby, attack iff at least 4; a spawn order asks for 4 minus the soldiers counted, which is between 1 and 4 |
| Directive.AttackHeadingDecodes | teams/team000/RobotPlayer.java:753-779 | the heading in an attack order decodes with msgDirection to the tower's direction, or to the closest unknown tower's |
| Directive.RelaysFinderReport | teams/team000/RobotPlayer.java:686-697 | with no tower in sight, the attack order relays the target and finder of the first unlocked self-named finder report of the pass |
| Directive.AttackOrderIsReport | teams/team000/RobotPlayer.java:686-690 | an attack order with a target is an attack report for every leader that lists the sender as a commander |
| Player.RobotPlayer.AttackOrders | teams/team000/RobotPlayer.java:749-779 | the message is AttackTurn's, and navigation changes by one hunt step exactly when AttackTurn hunts |
| Player.RobotPlayer.SquadOrders | teams/team000/RobotPlayer.java:726-779 | the message is SquadTurn's for the current counters, and navigation changes as SquadTurn says |
| Player.RobotPlayer.Orders | teams/team000/RobotPlayer.java:703-779 | the message, start flag, counters and navigation are LeaderTurn's; the counters are recounted only after the start of the game |
| Player.RobotPlayer.ArchonLeaderTick | teams/team000/RobotPlayer.java:657-794 | one pass of the loop: the scan's effect on commanders and finder. An exception in the scan sends nothing and changes nothing else. Otherwise exactly LeaderTurn's message is broadcast, with LeaderTurn's start flag, counters and hunt step |

## Left out

- The `run` dispatcher and the per-type routines: `archon`, `scout`,
  `bomber`, `soldier`, `mortar`, `sniper` and `archonFollower`, with their
  loops, `yield`, and the printing in the `catch` blocks. Only the
  operations listed above are modelled.
- Each pass of `archonLeader`'s infinite loop is modelled by
  `ArchonLeaderTick`. The loop-carried locals live in `LeaderState`.
- Round timing is not modelled. The `rc.yield()` calls end the robot's
  turn; the model treats each operation as instantaneous:
  - at the end of a pass of `archonLeader` (line 787);
  - inside `hunt` (line 112), so a pass that hunts broadcasts in the next
    round;
  - inside `designateLeader` (line 648).

  A pass whose scan throws does not yield, so the next pass runs in the
  same round; the model says only that such a pass broadcasts nothing.
- Host queries are parameters of the model, not modelled sensing:
  - the messages heard (`getAllMessages`);
  - the round number;
  - the nearby ground robots, as `RobotInfo` snapshots;
  - the result of `searchForTower`;
  - `senseClosestUnknownTower`, assumed never null;
  - whether the archon is busy (`working`);
  - whether `furthestArchonDist() < 8` holds (`archonsClose`);
  - for healing, the sensed robot's snapshot and level, and the archon's
    maximum energon and upkeep.

  `distanceFrom`, `furthestArchonDist` and `Math.hypot` are not modelled.
- Host calls never throw in the model. An exception raised inside
  `senseRobotInfo` part-way through `countSquad` is not modelled.
- `moveForward` is modelled as an immediate one-square move.
- `canMove` and ground occupancy are fixed for the duration of a call.
- `setIndicatorString` and the empty or commented-out routines are left
  out: `haveRoomToSpawn`, `designateTarget` and the morph delays.
- The host's `OMNI` direction is never used by the core and is left out.
- `rotateRight` of NONE is taken to be NONE.
- Energon amounts are exact reals, not IEEE doubles.
- Java `int` fields (IDs, counters, `squadID`) are unbounded integers. The
  counters are naturals and never wrap.
- `Messages.EqualsIgnoreCase` folds ASCII letters only. Java's
  `equalsIgnoreCase` also matches some non-ASCII letters with ASCII ones;
  for example 'ſ' (U+017F) upper-cases to 'S'. The model treats such text
  as no direction. The decoded text is always a direction name that a
  leader wrote, which is ASCII.
- Messages are values. `designateLeader` changes the received message in
  place before rebroadcasting it; the model broadcasts the changed copy.
- A Java `null` array inside a message is modelled as an empty sequence.
  The core only indexes these arrays, so both throw at the same point.
- Player.RobotPlayer.SquadOrders: its contract takes the counters as they
  stand. The count itself, `countSquad`, is stated by `CountSquad` and
  combined with it in `Orders`.
