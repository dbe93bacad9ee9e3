/**
 * The robot controller's state and the operations that change it step by
 * step: the bug navigation step, leader election, squad counting, the
 * leader's message scan and one pass of its duties, healing, and the
 * linear searches over commanders and messages.
 */
module Player {
  import opened Wrappers
  import opened Geometry
  import opened Messages
  import opened Host
  import opened Squad
  import Navigation
  import Election
  import Arbitration
  import Directive
  import Healing

  /** The order in which spaceToSpawn tries the neighbouring squares. */
  const SPAWN_ORDER: seq<Direction> := [North, South, East, West, NorthEast, NorthWest, SouthEast, SouthWest]

  /** The locals archonLeader keeps from one pass of its loop to the next:
      the IDs of its commanders, the last finder it heard of, and whether the
      start of the game is still on. */
  class LeaderState {
    const commanders: array<int>
    var finder: int
    var startOfGame: bool

    constructor ()
      ensures commanders.Length == Election.ARCHONS_PER_TEAM - 1
      ensures commanders[..] == [0, 0, 0] && finder == 0 && startOfGame
    {
      commanders := new int[Election.ARCHONS_PER_TEAM - 1](_ => 0);
      finder := 0;
      startOfGame := true;
    }
  }

  class RobotPlayer {
    const rc: RobotController
    var isTracing: bool
    /** The ID of the leader this archon follows, 0 for none. */
    var following: int
    var squadID: int
    var leader: bool
    var archonNum: nat
    var soldierNum: nat
    var sniperNum: nat
    var mortarNum: nat
    var scoutNum: nat
    var bomberNum: nat

    constructor (rc: RobotController)
      ensures this.rc == rc && !isTracing && following == 0 && squadID == 0 && !leader
      ensures Counters() == NoCounts
    {
      this.rc := rc;
      isTracing := false;
      following := 0;
      squadID := 0;
      leader := false;
      archonNum, soldierNum, sniperNum, mortarNum, scoutNum, bomberNum := 0, 0, 0, 0, 0, 0;
    }

    /** What hunt reads and changes. */
    function Nav(): Navigation.Nav
      reads this`isTracing, rc`facing, rc`location
    {
      Navigation.Nav(isTracing, rc.facing, rc.location)
    }

    /** The six squad counters. */
    function Counters(): Counts
      reads this`archonNum, this`soldierNum, this`sniperNum, this`mortarNum, this`scoutNum, this`bomberNum
    {
      Counts(archonNum, soldierNum, sniperNum, mortarNum, scoutNum, bomberNum)
    }

    /** hunt(goal): one step of bug navigation towards the goal direction. */
    method Hunt(goal: Direction)
      modifies this`isTracing, rc`facing, rc`location
      ensures Nav() == Navigation.HuntStep(old(Nav()), goal, rc.canMove)
    {
      if !isTracing {
        if rc.facing != goal {
          rc.SetDirection(goal);
        } else if rc.CanMove(goal) {
          rc.MoveForward();
        } else {
          isTracing := true;
        }
      } else {
        if rc.CanMove(goal) {
          isTracing := false;
          rc.SetDirection(goal);
        } else if rc.CanMove(rc.facing) {
          rc.MoveForward();
        } else {
          rc.SetDirection(rc.facing.RotateRight());
        }
      }
    }

    /** designateLeader, given the messages it reads. */
    method DesignateLeader(msgs: seq<Message>)
      modifies this`following, this`squadID, this`leader, rc`sent
      ensures var e := Election.Designate(old(leader), old(following), old(squadID), msgs, rc.id);
              && leader == e.leader && following == e.following && squadID == e.squadID
              && rc.sent == old(rc.sent) + e.broadcast
    {
      var est: Option<Message> := None;
      var i := 0;
      while i < |msgs|
        invariant 0 <= i <= |msgs|
        invariant Election.AllLabelled(msgs[..i])
        invariant est == Election.LastEstablish(msgs[..i])
      {
        if !msgs[i].HasLabel() {
          // strings[0].equals throws before anything was changed
          return;
        }
        if msgs[i].Label() == ESTABLISH_LEADER {
          est := Some(msgs[i]);
        }
        assert msgs[..i + 1][..i] == msgs[..i];
        i := i + 1;
      }
      assert msgs[..i] == msgs;

      if est.Some? && !leader && following == 0 {
        var e := est.value;
        if |e.ints| == 0 {
          return;
        }
        if e.ints[0] < Election.ARCHONS_PER_TEAM {
          if |e.ints| < 2 {
            return;
          }
          following := e.ints[1];
          if |e.ints| < 6 {
            return;
          }
          squadID := e.ints[5];
          var ints := e.ints[0 := e.ints[0] + 1];
          var count := ints[0];
          if count < 0 || count >= |ints| {
            return;
          }
          ints := ints[count := rc.id];
          rc.Broadcast(e.(ints := ints));
          return;
        }
      }
      if !leader && following == 0 {
        leader := true;
        var ints := [0, 0, 0, 0, 0, 0];
        ints := ints[1 := rc.id];
        ints := ints[0 := 1];
        ints := ints[5 := if est.Some? then 2 else 1];
        squadID := ints[5];
        assert ints == [1, rc.id, 0, 0, 0, squadID];
        rc.Broadcast(Message([Some(ESTABLISH_LEADER)], ints, []));
      }
    }

    /** resetCount() */
    method ResetCount()
      modifies this`archonNum, this`soldierNum, this`sniperNum, this`mortarNum, this`scoutNum, this`bomberNum
      ensures Counters() == NoCounts
    {
      archonNum := 0;
      soldierNum := 0;
      sniperNum := 0;
      mortarNum := 0;
      scoutNum := 0;
      bomberNum := 0;
    }

    /** One pass of countSquad's loop: a robot of the archon's team adds one
        to the counter of its type. */
    method CountOne(info: RobotInfo)
      modifies this`archonNum, this`soldierNum, this`sniperNum, this`mortarNum, this`scoutNum, this`bomberNum
      ensures Counters() == Counted(old(Counters()), info, rc.team)
    {
      if info.team == rc.team {
        match info.kind {
          case Archon => archonNum := archonNum + 1;
          case Soldier => soldierNum := soldierNum + 1;
          case Sniper => sniperNum := sniperNum + 1;
          case Mortar => mortarNum := mortarNum + 1;
          case Scout => scoutNum := scoutNum + 1;
          case Bomber => bomberNum := bomberNum + 1;
          case _ =>
        }
      }
    }

    /** countSquad(), given the ground robots sensed nearby. */
    method CountSquad(nearby: seq<RobotInfo>)
      modifies this`archonNum, this`soldierNum, this`sniperNum, this`mortarNum, this`scoutNum, this`bomberNum
      ensures Counters() == Tally(nearby, rc.team)
    {
      ResetCount();
      var i := 0;
      while i < |nearby|
        invariant 0 <= i <= |nearby|
        invariant Counters() == Tally(nearby[..i], rc.team)
      {
        assert nearby[..i + 1] == nearby[..i] + [nearby[i]];
        TallyAppend(nearby[..i], nearby[i], rc.team);
        CountOne(nearby[i]);
        i := i + 1;
      }
      assert nearby[..i] == nearby;
    }

    /** isCommander(commanders, id): whether id is one of the commanders. */
    method IsCommander(commanders: array<int>, id: int) returns (r: bool)
      ensures r <==> id in commanders[..]
    {
      var i := 0;
      while i < commanders.Length
        invariant 0 <= i <= commanders.Length
        invariant id !in commanders[..i]
      {
        if id == commanders[i] {
          return true;
        }
        i := i + 1;
      }
      assert commanders[..i] == commanders[..];
      return false;
    }

    /**
     * findLeaderMessage(msgs): the last message whose sender ints[0] is the
     * robot it follows. A message with an empty ints array throws, and the
     * match found before it is returned.
     */
    method FindLeaderMessage(msgs: seq<Message>) returns (r: Option<Message>)
      ensures var n := ReadableCount(msgs);
              && (r.None? <==> forall k :: 0 <= k < n ==> msgs[k].ints[0] != following)
              && (r.Some? ==> exists k :: 0 <= k < n && msgs[k] == r.value && msgs[k].ints[0] == following
                                          && forall j :: k < j < n ==> msgs[j].ints[0] != following)
    {
      r := None;
      var i := 0;
      while i < |msgs|
        invariant 0 <= i <= ReadableCount(msgs)
        invariant r.None? <==> forall k :: 0 <= k < i ==> msgs[k].ints[0] != following
        invariant r.Some? ==> exists k :: 0 <= k < i && msgs[k] == r.value && msgs[k].ints[0] == following
                                          && forall j :: k < j < i ==> msgs[j].ints[0] != following
      {
        if |msgs[i].ints| == 0 {
          return;
        }
        if msgs[i].ints[0] == following {
          r := Some(msgs[i]);
        }
        i := i + 1;
      }
    }

    /**
     * spaceToSpawn(): the first neighbouring square, in SPAWN_ORDER, that
     * holds no ground robot and can be moved into; the archon's own square
     * when there is none.
     */
    method SpaceToSpawn() returns (loc: Location)
      ensures (forall i :: 0 <= i < |SPAWN_ORDER| ==> !rc.CanSpawnInto(SPAWN_ORDER[i])) ==> loc == rc.location
      ensures forall i :: 0 <= i < |SPAWN_ORDER| && rc.CanSpawnInto(SPAWN_ORDER[i])
                          && (forall j :: 0 <= j < i ==> !rc.CanSpawnInto(SPAWN_ORDER[j]))
                          ==> loc == rc.location.Add(SPAWN_ORDER[i])
    {
      var here := rc.location;
      assert SPAWN_ORDER[0] == North && SPAWN_ORDER[1] == South && SPAWN_ORDER[2] == East && SPAWN_ORDER[3] == West;
      assert SPAWN_ORDER[4] == NorthEast && SPAWN_ORDER[5] == NorthWest && SPAWN_ORDER[6] == SouthEast;
      assert SPAWN_ORDER[7] == SouthWest;
      if rc.CanSpawnInto(North) {
        return here.Add(North);
      } else if rc.CanSpawnInto(South) {
        return here.Add(South);
      } else if rc.CanSpawnInto(East) {
        return here.Add(East);
      } else if rc.CanSpawnInto(West) {
        return here.Add(West);
      } else if rc.CanSpawnInto(NorthEast) {
        return here.Add(NorthEast);
      } else if rc.CanSpawnInto(NorthWest) {
        return here.Add(NorthWest);
      } else if rc.CanSpawnInto(SouthEast) {
        return here.Add(SouthEast);
      } else if rc.CanSpawnInto(SouthWest) {
        return here.Add(SouthWest);
      }
      return here;
    }

    /**
     * archonHeal, given the sensed snapshot of the hurt robot and its level,
     * an archon's maximum energon and upkeep, and the maximum energon of the
     * hurt robot's type.
     */
    method ArchonHeal(hurt: RobotInfo, level: RobotLevel, archonMax: real, upkeep: real, typeMax: real)
      modifies rc`energon, rc`transfers
      ensures match Healing.TransferAmount(old(rc.energon), hurt, archonMax, upkeep, typeMax)
              case None => rc.energon == old(rc.energon) && rc.transfers == old(rc.transfers)
              case Some(a) => rc.energon == old(rc.energon) - a
                              && rc.transfers == old(rc.transfers) + [Transfer(a, hurt.location, level)]
    {
      if rc.energon > archonMax / 8.0 && hurt.eventualEnergon < typeMax {
        var needed := hurt.maxEnergon - hurt.energonLevel;
        var spare := rc.energon - upkeep;
        var amount := if needed <= spare then needed else spare;
        rc.TransferEnergon(amount, hurt.location, level);
      }
    }

    /**
     * The leader's scan of the messages heard in one pass. commanderTargetLocation and
     * ignoreOtherCommanders are the scan's own locals; the commanders and
     * the finder persist in st.
     */
    method ScanMessages(st: LeaderState, msgs: seq<Message>) returns (r: Arbitration.Scan)
      requires st.commanders.Length == Election.ARCHONS_PER_TEAM - 1
      modifies st.commanders, st`finder
      ensures r == Arbitration.ScanAll(rc.id, Arbitration.ScanState(old(st.commanders[..]), old(st.finder), None, false), msgs)
      ensures st.commanders[..] == r.state.commanders && st.finder == r.state.finder
    {
      ghost var start := Arbitration.ScanState(st.commanders[..], st.finder, None, false);
      var target: Option<Location> := None;
      var ignore := false;
      var i := 0;
      while i < |msgs|
        invariant 0 <= i <= |msgs|
        invariant Arbitration.ScanAll(rc.id, start, msgs)
                  == Arbitration.ScanAll(rc.id, Arbitration.ScanState(st.commanders[..], st.finder, target, ignore), msgs[i..])
      {
        var m := msgs[i];
        var cur := Arbitration.ScanState(st.commanders[..], st.finder, target, ignore);
        assert msgs[i..][0] == m && msgs[i..][1..] == msgs[i + 1..];
        if !m.HasLabel() {
          return Arbitration.Threw(cur);
        }
        if m.Label() == ESTABLISH_LEADER && |m.ints| < 2 {
          return Arbitration.Threw(cur);
        }
        if m.Label() == ESTABLISH_LEADER && m.ints[1] == rc.id {
          var j := 2;
          while j <= Election.ARCHONS_PER_TEAM
            invariant 2 <= j <= 5 && j <= |m.ints|
            invariant st.finder == cur.finder
            invariant forall k :: 0 <= k < j - 2 ==> st.commanders[k] == m.ints[k + 2]
            invariant forall k :: j - 2 <= k < 3 ==> st.commanders[k] == cur.commanders[k]
          {
            if j >= |m.ints| {
              return Arbitration.Threw(cur.(commanders := st.commanders[..]));
            }
            st.commanders[j - 2] := m.ints[j];
            j := j + 1;
          }
          assert st.commanders[..] == m.ints[2..5];
        } else if m.Label() == LEADER_MSG {
          if |m.strings| < 2 || m.strings[1].None? {
            return Arbitration.Threw(cur);
          }
          if m.strings[1].value == ATTACK_STRING {
            if |m.ints| < 1 {
              return Arbitration.Threw(cur);
            }
            var fromCommander := IsCommander(st.commanders, m.ints[0]);
            if fromCommander {
              if |m.locations| < 2 {
                return Arbitration.Threw(cur);
              }
              if m.locations[1].Some? && !ignore {
                target := m.locations[1];
                if |m.ints| < 2 {
                  return Arbitration.Threw(cur.(target := target));
                }
                st.finder := m.ints[1];
                if m.ints[0] == st.finder {
                  ignore := true;
                }
              }
            }
          }
        }
        i := i + 1;
      }
      return Arbitration.Done(Arbitration.ScanState(st.commanders[..], st.finder, target, ignore));
    }

    /**
     * The attack branch of a leader pass: the message it builds, with the
     * leader at its current location, and the hunt towards the closest
     * unknown tower when no tower is in sight and mayHunt holds.
     */
    method AttackOrders(target: Option<Location>, finder: int, tower: Option<RobotInfo>,
                        unknownTowerDir: Direction, mayHunt: bool) returns (msg: Message)
      modifies this`isTracing, rc`facing, rc`location
      ensures var t := Directive.AttackTurn(rc.id, rc.team, old(rc.location), tower, target, finder, unknownTowerDir, mayHunt);
              && msg == t.msg
              && Nav() == (if t.hunt.Some? then Navigation.HuntStep(old(Nav()), t.hunt.value, rc.canMove) else old(Nav()))
    {
      var here := rc.location;
      var strings := [Some(LEADER_MSG), Some(ATTACK_STRING), None];
      var ints := [rc.id, 0];
      var locations: seq<Option<Location>> := [Some(here), None];
      var goalDir: Direction;
      if tower.Some? {
        goalDir := CalcDirection(rc.location, tower.value.location);
        ints := ints[1 := rc.id];
        if tower.value.team != rc.team {
          locations := locations[1 := Some(tower.value.location)];
        }
      } else {
        if target.Some? {
          locations := locations[1 := target];
          ints := ints[1 := finder];
        }
        goalDir := unknownTowerDir;
        if mayHunt {
          Hunt(goalDir);
        }
      }
      strings := strings[2 := Some(goalDir.Name())];
      msg := Message(strings, ints, locations);
      assert msg == Directive.LeaderMessage(rc.id, here, Directive.Attack, ints[1], locations[1], Some(goalDir));
    }

    /**
     * The order of one leader pass after the start of the game, once the
     * squad is counted: spawn while it is short of troops, else attack.
     */
    method SquadOrders(target: Option<Location>, finder: int, tower: Option<RobotInfo>,
                       unknownTowerDir: Direction, mayHunt: bool) returns (msg: Message)
      modifies this`isTracing, rc`facing, rc`location
      ensures var t := Directive.SquadTurn(rc.id, rc.team, old(rc.location), Counters(), tower,
                                           target, finder, unknownTowerDir, mayHunt);
              && msg == t.msg
              && Nav() == (if t.hunt.Some? then Navigation.HuntStep(old(Nav()), t.hunt.value, rc.canMove) else old(Nav()))
    {
      if TroopNum(Counters()) < Directive.MIN_SOLDIER_NUM {
        var soldiersNeeded := Directive.MIN_SOLDIER_NUM - soldierNum;
        var strings := [Some(LEADER_MSG), Some(SPAWN_STRING), None];
        var ints := [rc.id, soldiersNeeded];
        var locations: seq<Option<Location>> := [Some(rc.location), None];
        msg := Message(strings, ints, locations);
        assert msg == Directive.LeaderMessage(rc.id, rc.location, Directive.Spawn, soldiersNeeded, None, None);
      } else {
        msg := AttackOrders(target, finder, tower, unknownTowerDir, mayHunt);
      }
    }

    /**
     * The order of one leader pass after a scan that did not throw:
     * target and finder are what the scan settled on, and mayHunt says
     * whether the archon is idle with every allied archon within distance 8.
     * The start-of-game flag, the squad counters and, when the leader moves,
     * its navigation state change; the message is returned.
     */
    method Orders(st: LeaderState, target: Option<Location>, finder: int, round: int, nearby: seq<RobotInfo>,
                  tower: Option<RobotInfo>, unknownTowerDir: Direction, mayHunt: bool) returns (msg: Message)
      modifies st`startOfGame
      modifies this`archonNum, this`soldierNum, this`sniperNum, this`mortarNum, this`scoutNum, this`bomberNum
      modifies this`isTracing, rc`facing, rc`location
      ensures var c := if old(st.startOfGame) then old(Counters()) else Tally(nearby, rc.team);
              var t := Directive.LeaderTurn(rc.id, rc.team, old(rc.location), old(st.startOfGame), round, c, tower,
                                            target, finder, unknownTowerDir, mayHunt);
              && msg == t.msg && st.startOfGame == t.stillStart && Counters() == c
              && Nav() == (if t.hunt.Some? then Navigation.HuntStep(old(Nav()), t.hunt.value, rc.canMove) else old(Nav()))
    {
      if st.startOfGame {
        var strings := [Some(LEADER_MSG), Some(IDLE_STRING), None];
        var ints := [rc.id, 0];
        var locations: seq<Option<Location>> := [Some(rc.location), None];
        if round < Directive.SPAWN_BEFORE_ROUND {
          strings := strings[1 := Some(SPAWN_STRING)];
        }
        if round >= Directive.START_ENDS_AT_ROUND {
          st.startOfGame := false;
        }
        msg := Message(strings, ints, locations);
        assert msg == Directive.LeaderMessage(rc.id, rc.location,
                        if round < Directive.SPAWN_BEFORE_ROUND then Directive.Spawn else Directive.Idle, 0, None, None);
      } else {
        CountSquad(nearby);
        msg := SquadOrders(target, finder, tower, unknownTowerDir, mayHunt);
      }
    }

    /**
     * One pass of archonLeader's loop, given what the host reports for it:
     * the messages heard, the round number, the ground robots nearby, the
     * enemy tower in sight if any, the direction of the closest unknown
     * tower, whether the archon is busy, and whether every allied archon is
     * within distance 8. An exception in the scan ends the pass without a
     * broadcast.
     */
    method ArchonLeaderTick(st: LeaderState, msgs: seq<Message>, round: int, nearby: seq<RobotInfo>,
                            tower: Option<RobotInfo>, unknownTowerDir: Direction, working: bool, archonsClose: bool)
      requires st.commanders.Length == Election.ARCHONS_PER_TEAM - 1
      modifies st.commanders, st`finder, st`startOfGame
      modifies this`archonNum, this`soldierNum, this`sniperNum, this`mortarNum, this`scoutNum, this`bomberNum
      modifies this`isTracing, rc`facing, rc`location, rc`sent
      ensures var s := Arbitration.ScanAll(rc.id, Arbitration.ScanState(old(st.commanders[..]), old(st.finder), None, false), msgs);
              && st.commanders[..] == s.state.commanders && st.finder == s.state.finder
              && (s.Threw? ==>
                    && st.startOfGame == old(st.startOfGame) && rc.sent == old(rc.sent)
                    && Counters() == old(Counters()) && Nav() == old(Nav()))
              && (s.Done? ==>
                    var c := if old(st.startOfGame) then old(Counters()) else Tally(nearby, rc.team);
                    var t := Directive.LeaderTurn(rc.id, rc.team, old(rc.location), old(st.startOfGame), round, c, tower,
                                                  s.state.target, s.state.finder, unknownTowerDir, !working && archonsClose);
                    && st.startOfGame == t.stillStart && Counters() == c
                    && rc.sent == old(rc.sent) + [t.msg]
                    && Nav() == (if t.hunt.Some? then Navigation.HuntStep(old(Nav()), t.hunt.value, rc.canMove) else old(Nav())))
    {
      var scan := ScanMessages(st, msgs);
      if scan.Threw? {
        return;
      }
      var msg := Orders(st, scan.state.target, st.finder, round, nearby, tower, unknownTowerDir, !working && archonsClose);
      rc.Broadcast(msg);
    }
  }
}
