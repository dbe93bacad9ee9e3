/**
 * The leader archon's directive for its squad (the second half of one
 * pass of archonLeader's loop): spawn, attack or idle, chosen from the round number
 * during the start of the game and from the troop headcount afterwards, and
 * the leader message that carries it.
 */
module Directive {
  import opened Wrappers
  import opened Geometry
  import opened Messages
  import opened Host
  import opened Squad
  import Arbitration

  /** A squad with fewer troops than this spawns more. */
  const MIN_SOLDIER_NUM: int := 4
  /** During the start of the game the leader orders spawning before this round. */
  const SPAWN_BEFORE_ROUND: int := 70
  /** The start of the game is over once this round is reached. */
  const START_ENDS_AT_ROUND: int := 150

  datatype Order = Idle | Spawn | Attack
  {
    /** The word written into strings[1] of the leader message. */
    function Name(): string {
      match this
      case Idle => IDLE_STRING
      case Spawn => SPAWN_STRING
      case Attack => ATTACK_STRING
    }
  }

  /** The words of different orders differ. */
  lemma OrderNamesDiffer(a: Order, b: Order)
    requires a != b
    ensures a.Name() != b.Name()
  {
    assert |a.Name()| != |b.Name()|;
  }

  /**
   * The leader message: the label "leaderMsg", the order's word and the
   * name of the heading (null unless attacking); the leader's ID and one
   * number (soldiers wanted, or the finder's ID); the leader's location and
   * the target's, if known.
   */
  function LeaderMessage(myId: int, here: Location, order: Order, number: int,
                         target: Option<Location>, heading: Option<Direction>): (m: Message)
    ensures m.HasLabel() && m.Label() == LEADER_MSG
    ensures |m.strings| == 3 && m.strings[1] == Some(order.Name())
    ensures m.ints == [myId, number] && m.locations == [Some(here), target]
    // a follower decodes the heading with msgDirection to the direction meant
    ensures heading.Some? && heading.value.IsCompass() ==> MsgDirection(m.strings[2]) == heading
    ensures heading.None? ==> m.strings[2].None? && MsgDirection(m.strings[2]).None?
  {
    var third := if heading.Some? then Some(heading.value.Name()) else None;
    assert heading.Some? && heading.value.IsCompass() ==> MsgDirection(third) == heading by {
      if heading.Some? && heading.value.IsCompass() {
        DirectionNameRoundTrip(heading.value, heading.value.Name());
      }
    }
    Message([Some(LEADER_MSG), Some(order.Name()), third], [myId, number], [Some(here), target])
  }

  /** Every leader message has the shape the leaders' scan passes over
      without an exception. */
  lemma LeaderMessageIsShaped(myId: int, here: Location, order: Order, number: int,
                              target: Option<Location>, heading: Option<Direction>)
    ensures Arbitration.ProtocolShaped(LeaderMessage(myId, here, order, number, target, heading))
  {
  }

  /** What one pass of the leader decides after its scan: whether the start
      of the game goes on, the message it broadcasts and the direction it
      hunts in, if it moves. */
  datatype Turn = Turn(stillStart: bool, msg: Message, hunt: Option<Direction>)

  /**
   * The directive. During the start of the game: spawn before round 70, idle
   * after, and the start of the game ends at round 150. Afterwards, with c
   * the fresh squad count: spawn while the troops are fewer than
   * MIN_SOLDIER_NUM, asking for the soldiers missing; else attack, aiming at
   * a sensed tower (which the leader claims to have found) or else relaying
   * the target and finder its scan settled on, heading for the closest
   * unknown tower, and moving there when it may.
   */
  function LeaderTurn(myId: int, myTeam: Team, here: Location, startOfGame: bool, round: int, c: Counts,
                      tower: Option<RobotInfo>, scanTarget: Option<Location>, finder: int,
                      unknownTowerDir: Direction, mayHunt: bool): (t: Turn)
    ensures t.msg.HasLabel() && t.msg.Label() == LEADER_MSG
    ensures |t.msg.ints| == 2 && t.msg.ints[0] == myId
    ensures |t.msg.locations| == 2 && t.msg.locations[0] == Some(here)
    // the start of the game never comes back
    ensures t.stillStart ==> startOfGame
    // the leader moves only when attacking without a tower in sight
    ensures t.hunt.Some? ==> !startOfGame && TroopNum(c) >= MIN_SOLDIER_NUM && tower.None? && mayHunt
                             && t.hunt.value == unknownTowerDir
    // and it does move then, once the squad is full
    ensures !startOfGame && TroopNum(c) >= MIN_SOLDIER_NUM && tower.None? && mayHunt ==> t.hunt == Some(unknownTowerDir)
  {
    if startOfGame then
      var order := if round < SPAWN_BEFORE_ROUND then Spawn else Idle;
      Turn(!(round >= START_ENDS_AT_ROUND), LeaderMessage(myId, here, order, 0, None, None), None)
    else SquadTurn(myId, myTeam, here, c, tower, scanTarget, finder, unknownTowerDir, mayHunt)
  }

  /** After the start of the game: spawn while the squad is short of troops,
      else attack. */
  function SquadTurn(myId: int, myTeam: Team, here: Location, c: Counts, tower: Option<RobotInfo>,
                     scanTarget: Option<Location>, finder: int, unknownTowerDir: Direction, mayHunt: bool): (t: Turn)
    ensures !t.stillStart
  {
    if TroopNum(c) < MIN_SOLDIER_NUM then
      Turn(false, LeaderMessage(myId, here, Spawn, MIN_SOLDIER_NUM - c.soldiers, None, None), None)
    else AttackTurn(myId, myTeam, here, tower, scanTarget, finder, unknownTowerDir, mayHunt)
  }

  /** The attack order: a sensed tower is aimed at and claimed, with its
      location passed on unless it is the leader's own team's; without one,
      the scan's target and finder are relayed and the leader heads for the
      closest unknown tower, moving there when it may. */
  function AttackTurn(myId: int, myTeam: Team, here: Location, tower: Option<RobotInfo>, scanTarget: Option<Location>,
                      finder: int, unknownTowerDir: Direction, mayHunt: bool): (t: Turn)
    ensures |t.msg.strings| == 3 && t.msg.strings[1] == Some(ATTACK_STRING) && !t.stillStart
    ensures |t.msg.ints| == 2 && |t.msg.locations| == 2
    // a tower in sight is claimed by the leader, and its location passed on unless it is its own team's
    ensures tower.Some? ==> && t.msg.ints[1] == myId && t.hunt.None?
                            && t.msg.locations[1] == (if tower.value.team != myTeam then Some(tower.value.location) else None)
    // otherwise the scan's target is relayed, and the leader hunts exactly when it may
    ensures tower.None? ==> && t.msg.locations[1] == scanTarget
                            && (scanTarget.Some? ==> t.msg.ints[1] == finder)
                            && (t.hunt.Some? <==> mayHunt)
  {
    match tower
    case Some(tw) =>
      var target := if tw.team != myTeam then Some(tw.location) else None;
      Turn(false, LeaderMessage(myId, here, Attack, myId, target, Some(CalcDirection(here, tw.location))), None)
    case None =>
      var number := if scanTarget.Some? then finder else 0;
      Turn(false, LeaderMessage(myId, here, Attack, number, scanTarget, Some(unknownTowerDir)),
           if mayHunt then Some(unknownTowerDir) else None)
  }

  /** During the start of the game the leader orders spawning before round
      70 and idling from then on, and the start of the game lasts exactly
      until round 150. */
  lemma StartOfGameOrders(myId: int, myTeam: Team, here: Location, round: int, c: Counts,
                          tower: Option<RobotInfo>, scanTarget: Option<Location>, finder: int,
                          unknownTowerDir: Direction, mayHunt: bool)
    ensures var t := LeaderTurn(myId, myTeam, here, true, round, c, tower, scanTarget, finder, unknownTowerDir, mayHunt);
            && (t.msg.strings[1] == Some(SPAWN_STRING) <==> round < SPAWN_BEFORE_ROUND)
            && (t.msg.strings[1] == Some(IDLE_STRING) <==> round >= SPAWN_BEFORE_ROUND)
            && (t.stillStart <==> round < START_ENDS_AT_ROUND)
            && t.hunt.None?
  {
    OrderNamesDiffer(Spawn, Idle);
  }

  /**
   * Spawn until the squad is full: after the start of the game, the leader
   * orders spawning exactly when fewer than MIN_SOLDIER_NUM troops of its
   * team stand nearby (archons not counted), and then asks for the soldiers
   * missing, between one and MIN_SOLDIER_NUM; otherwise it orders an attack.
   */
  lemma SpawnUntilSquadFull(myId: int, myTeam: Team, here: Location, round: int, nearby: seq<RobotInfo>,
                            tower: Option<RobotInfo>, scanTarget: Option<Location>, finder: int,
                            unknownTowerDir: Direction, mayHunt: bool)
    ensures var t := LeaderTurn(myId, myTeam, here, false, round, Tally(nearby, myTeam), tower, scanTarget,
                                finder, unknownTowerDir, mayHunt);
            && (t.msg.strings[1] == Some(SPAWN_STRING) <==> |Troops(nearby, myTeam)| < MIN_SOLDIER_NUM)
            && (t.msg.strings[1] == Some(ATTACK_STRING) <==> |Troops(nearby, myTeam)| >= MIN_SOLDIER_NUM)
            && (t.msg.strings[1] == Some(SPAWN_STRING) ==>
                  && t.msg.ints[1] == MIN_SOLDIER_NUM - Count(nearby, myTeam, Soldier)
                  && 1 <= t.msg.ints[1] <= MIN_SOLDIER_NUM)
  {
    TroopNumIsHeadcount(nearby, myTeam);
    OrderNamesDiffer(Spawn, Attack);
  }

  /**
   * The heading the leader broadcasts with an attack order decodes, with
   * msgDirection, to the direction it meant: the direction of the tower in
   * sight, or else of the closest unknown tower.
   */
  lemma AttackHeadingDecodes(myId: int, myTeam: Team, here: Location, round: int, c: Counts,
                             tower: Option<RobotInfo>, scanTarget: Option<Location>, finder: int,
                             unknownTowerDir: Direction, mayHunt: bool)
    requires TroopNum(c) >= MIN_SOLDIER_NUM
    requires tower.Some? ==> tower.value.location != here
    requires tower.None? ==> unknownTowerDir.IsCompass()
    ensures var t := LeaderTurn(myId, myTeam, here, false, round, c, tower, scanTarget, finder, unknownTowerDir, mayHunt);
            var heading := if tower.Some? then CalcDirection(here, tower.value.location) else unknownTowerDir;
            MsgDirection(t.msg.strings[2]) == Some(heading)
  {
    var heading := if tower.Some? then CalcDirection(here, tower.value.location) else unknownTowerDir;
    assert heading.IsCompass();
    DirectionNameRoundTrip(heading, heading.Name());
  }

  /**
   * The leader passes on its commanders' finding: when no tower is in sight
   * and, in this pass's scan, a commander's report naming itself as finder
   * was reached before any lock, the leader's attack order carries that
   * report's target and finder, whatever messages came after it.
   */
  lemma RelaysFinderReport(myId: int, myTeam: Team, here: Location, round: int, c: Counts,
                           s: Arbitration.ScanState, before: seq<Message>, m: Message, after: seq<Message>,
                           unknownTowerDir: Direction, mayHunt: bool)
    requires TroopNum(c) >= MIN_SOLDIER_NUM && |s.commanders| == 3
    requires Arbitration.ScanAll(myId, s, before).Done?
    requires var u := Arbitration.ScanAll(myId, s, before).state;
             !u.ignore && Arbitration.AttackReport(m, u.commanders) && |m.ints| >= 2 && m.ints[0] == m.ints[1]
    ensures var r := Arbitration.ScanAll(myId, s, before + [m] + after).state;
            var t := LeaderTurn(myId, myTeam, here, false, round, c, None, r.target, r.finder, unknownTowerDir, mayHunt);
            t.msg.strings[1] == Some(ATTACK_STRING) && t.msg.locations[1] == m.locations[1] && t.msg.ints[1] == m.ints[1]
  {
    Arbitration.FinderKeepsPriority(myId, s, before, m, after);
  }

  /** A leader's attack order with a known target is, for any leader that
      lists it among its commanders, an attack report its scan considers. */
  lemma AttackOrderIsReport(myId: int, myTeam: Team, here: Location, round: int, c: Counts,
                            tower: Option<RobotInfo>, scanTarget: Option<Location>, finder: int,
                            unknownTowerDir: Direction, mayHunt: bool, commanders: seq<int>)
    requires myId in commanders
    ensures var t := LeaderTurn(myId, myTeam, here, false, round, c, tower, scanTarget, finder, unknownTowerDir, mayHunt);
            t.msg.strings[1] == Some(ATTACK_STRING) && t.msg.locations[1].Some?
            ==> Arbitration.AttackReport(t.msg, commanders)
  {
  }
}
