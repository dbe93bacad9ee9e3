/**
 * Squad counting (countSquad, troopNum): how many robots of each type of
 * the archon's own team stand nearby, and the troop headcount, which leaves
 * archons out.
 */
module Squad {
  import opened Host

  /** The six counters countSquad fills: archonNum, soldierNum, sniperNum,
      mortarNum, scoutNum and bomberNum. */
  datatype Counts = Counts(archons: nat, soldiers: nat, snipers: nat, mortars: nat, scouts: nat, bombers: nat)

  /** Every counter at zero, as resetCount leaves them. */
  const NoCounts := Counts(0, 0, 0, 0, 0, 0)

  /** The number of robots of the given team and type among rs. */
  function Count(rs: seq<RobotInfo>, team: Team, kind: RobotType): (n: nat)
    ensures n <= |rs|
  {
    if rs == [] then 0
    else Count(rs[..|rs| - 1], team, kind) + (if rs[|rs| - 1].team == team && rs[|rs| - 1].kind == kind then 1 else 0)
  }

  /** The counters after one count over the sensed robots rs. */
  function Tally(rs: seq<RobotInfo>, team: Team): Counts {
    Counts(Count(rs, team, Archon), Count(rs, team, Soldier), Count(rs, team, Sniper),
           Count(rs, team, Mortar), Count(rs, team, Scout), Count(rs, team, Bomber))
  }

  /** troopNum(): every counter but the archons'. */
  function TroopNum(c: Counts): nat {
    c.soldiers + c.snipers + c.mortars + c.scouts + c.bombers
  }

  /** The robot types that make up a squad's troops. */
  predicate IsTroop(kind: RobotType) {
    kind == Soldier || kind == Sniper || kind == Mortar || kind == Scout || kind == Bomber
  }

  /** The troops of the given team among rs, in order. */
  function Troops(rs: seq<RobotInfo>, team: Team): (t: seq<RobotInfo>)
    ensures forall r :: r in t ==> r in rs && r.team == team && IsTroop(r.kind)
  {
    if rs == [] then []
    else
      var last := rs[|rs| - 1];
      Troops(rs[..|rs| - 1], team) + (if last.team == team && IsTroop(last.kind) then [last] else [])
  }

  /** Every troop of the team is listed, as often as it was sensed, and
      nothing else is. */
  lemma {:induction false} TroopsListsEveryTroop(rs: seq<RobotInfo>, team: Team)
    ensures forall r :: multiset(Troops(rs, team))[r]
                        == (if r.team == team && IsTroop(r.kind) then multiset(rs)[r] else 0)
  {
    if rs != [] {
      var front, last := rs[..|rs| - 1], rs[|rs| - 1];
      TroopsListsEveryTroop(front, team);
      assert rs == front + [last];
    }
  }

  /**
   * The headcount: after a count, troopNum() is the number of same-team
   * robots nearby that are not archons, towers or of another type the
   * counter does not know.
   */
  lemma {:induction false} TroopNumIsHeadcount(rs: seq<RobotInfo>, team: Team)
    ensures TroopNum(Tally(rs, team)) == |Troops(rs, team)|
  {
    if rs != [] {
      TroopNumIsHeadcount(rs[..|rs| - 1], team);
    }
  }

  /**
   * The counters after one more sensed robot r: a robot of the counting
   * team adds one to the counter of its type (none for a type without a
   * counter); a robot of another team changes nothing. The troop headcount
   * therefore grows by one exactly for a troop of the counting team, and the
   * archons' counter exactly for an archon of it.
   */
  function Counted(c: Counts, r: RobotInfo, team: Team): (d: Counts)
    ensures TroopNum(d) == TroopNum(c) + (if r.team == team && IsTroop(r.kind) then 1 else 0)
    ensures d.archons == c.archons + (if r.team == team && r.kind == Archon then 1 else 0)
  {
    if r.team != team then c
    else
      match r.kind
      case Archon => c.(archons := c.archons + 1)
      case Soldier => c.(soldiers := c.soldiers + 1)
      case Sniper => c.(snipers := c.snipers + 1)
      case Mortar => c.(mortars := c.mortars + 1)
      case Scout => c.(scouts := c.scouts + 1)
      case Bomber => c.(bombers := c.bombers + 1)
      case _ => c
  }

  /** Counting robot by robot agrees with the count by type. */
  lemma TallyAppend(rs: seq<RobotInfo>, r: RobotInfo, team: Team)
    ensures Tally(rs + [r], team) == Counted(Tally(rs, team), r, team)
  {
    assert (rs + [r])[..|rs + [r]| - 1] == rs;
  }
}
