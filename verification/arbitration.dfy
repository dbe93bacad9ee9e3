/**
 * The leader archon's scan of the messages it hears in each pass of its loop
 * (archonLeader): it learns its commanders (the archons that joined its
 * squad) from its own establish-leader message, and takes an attack target
 * from its commanders' reports, where the first report whose sender is the
 * finder it names locks out every later report in that pass.
 */
module Arbitration {
  import opened Wrappers
  import opened Geometry
  import opened Messages
  import Election

  /**
   * What the scan reads and changes: the commanders array and finder, which
   * live across passes, and the pass's own commanderTargetLocation and
   * ignoreOtherCommanders, which start as null and false.
   */
  datatype ScanState = ScanState(commanders: seq<int>, finder: int, target: Option<Location>, ignore: bool)

  /** The scan either runs to its end or throws, keeping what it had already written. */
  datatype Scan = Done(state: ScanState) | Threw(state: ScanState)

  /** A leader message from a listed commander that orders an attack on a
      known target. */
  predicate AttackReport(m: Message, commanders: seq<int>) {
    && m.HasLabel() && m.Label() == LEADER_MSG
    && |m.strings| >= 2 && m.strings[1] == Some(ATTACK_STRING)
    && |m.ints| >= 1 && m.ints[0] in commanders
    && |m.locations| >= 2 && m.locations[1].Some?
  }

  /** An establish-leader message naming myId as its leader. */
  predicate RosterFor(m: Message, myId: int) {
    m.HasLabel() && m.Label() == ESTABLISH_LEADER && |m.ints| >= 2 && m.ints[1] == myId
  }

  /** The two shapes of message the team's robots broadcast: a well-formed
      establish-leader message (six ints), or a leader message with three
      strings, an order word, two ints and two locations. */
  predicate ProtocolShaped(m: Message) {
    || Election.WellFormed(m)
    || (m.HasLabel() && m.Label() == LEADER_MSG && |m.strings| == 3 && m.strings[1].Some?
        && |m.ints| == 2 && |m.locations| == 2)
  }

  /** commanders[j - 2] := ints[j] for j = 2, 3, 4; a short ints array throws
      part-way, after the copies already made. */
  function CopyRoster(s: ScanState, ints: seq<int>): (r: Scan)
    requires |s.commanders| == 3 && |ints| >= 2
    ensures r.Done? <==> |ints| >= 5
    ensures r.state == s.(commanders := r.state.commanders)
    ensures |r.state.commanders| == 3
    ensures forall k :: 0 <= k < 3 && k + 2 < |ints| ==> r.state.commanders[k] == ints[k + 2]
    ensures forall k :: |ints| - 2 <= k < 3 ==> r.state.commanders[k] == s.commanders[k]
  {
    if |ints| >= 5 then Done(s.(commanders := ints[2..5]))
    else Threw(s.(commanders := ints[2..] + s.commanders[|ints| - 2..]))
  }

  /** The scan's treatment of one message, in the order the conditions are
      evaluated and with the exceptions their array accesses can raise. */
  function ScanStep(myId: int, s: ScanState, m: Message): (r: Scan)
    requires |s.commanders| == 3
    ensures |r.state.commanders| == 3
    // only the leader's own roster message changes the commanders
    ensures r.state.commanders != s.commanders ==> RosterFor(m, myId)
    // only a commander's attack report, before the lock, changes the target
    ensures r.state.finder != s.finder || r.state.target != s.target || r.state.ignore != s.ignore
            ==> !s.ignore && AttackReport(m, s.commanders) && r.state.target == m.locations[1]
    ensures r.Done? && r.state.finder != s.finder ==> |m.ints| >= 2 && r.state.finder == m.ints[1]
    // the lock is set by a report whose sender is the finder it names
    ensures r.state.ignore && !s.ignore ==>
              && r.Done? && |m.ints| >= 2 && m.ints[0] == m.ints[1]
              && r.state.finder == m.ints[1]
    // the leader's own roster message is copied into commanders
    ensures RosterFor(m, myId) ==> r == CopyRoster(s, m.ints)
    // an unlocked commander report sets the target and finder, and locks the
    // pass exactly when its sender is the finder it names
    ensures !s.ignore && AttackReport(m, s.commanders) && |m.ints| >= 2 ==>
              && r.Done? && r.state.target == m.locations[1] && r.state.finder == m.ints[1]
              && (r.state.ignore <==> m.ints[0] == m.ints[1])
    // a message of either shape the team broadcasts never throws: other
    // squads' announcements and other leaders' orders are passed over
    ensures ProtocolShaped(m) ==> r.Done?
  {
    if !m.HasLabel() then Threw(s)
    else if m.Label() == ESTABLISH_LEADER && |m.ints| < 2 then Threw(s)
    else if m.Label() == ESTABLISH_LEADER && m.ints[1] == myId then CopyRoster(s, m.ints)
    else if m.Label() != LEADER_MSG then Done(s)
    else if |m.strings| < 2 || m.strings[1].None? then Threw(s)
    else if m.strings[1].value != ATTACK_STRING then Done(s)
    else if |m.ints| < 1 then Threw(s)
    else if m.ints[0] !in s.commanders then Done(s)
    else if |m.locations| < 2 then Threw(s)
    else if m.locations[1].None? || s.ignore then Done(s)
    else if |m.ints| < 2 then Threw(s.(target := m.locations[1]))
    else Done(s.(target := m.locations[1], finder := m.ints[1], ignore := m.ints[0] == m.ints[1]))
  }

  /** The whole scan, message by message, stopping at the first exception. */
  function ScanAll(myId: int, s: ScanState, msgs: seq<Message>): (r: Scan)
    requires |s.commanders| == 3
    ensures |r.state.commanders| == 3
    decreases |msgs|
  {
    if msgs == [] then Done(s)
    else match ScanStep(myId, s, msgs[0])
      case Threw(t) => Threw(t)
      case Done(t) => ScanAll(myId, t, msgs[1..])
  }

  /** Scanning a + b is scanning a and, unless it threw, going on with b. */
  lemma {:induction false} ScanAllAppend(myId: int, s: ScanState, a: seq<Message>, b: seq<Message>)
    requires |s.commanders| == 3
    ensures ScanAll(myId, s, a + b) == match ScanAll(myId, s, a)
                                       case Threw(t) => Threw(t)
                                       case Done(t) => ScanAll(myId, t, b)
    decreases |a|
  {
    if a == [] {
      assert a + b == b;
    } else {
      assert (a + b)[0] == a[0] && (a + b)[1..] == a[1..] + b;
      match ScanStep(myId, s, a[0])
      case Threw(t) =>
      case Done(t) => ScanAllAppend(myId, t, a[1..], b);
    }
  }

  /** Once locked, the rest of the pass's messages leave target and finder alone. */
  lemma {:induction false} LockedTargetStays(myId: int, s: ScanState, msgs: seq<Message>)
    requires |s.commanders| == 3 && s.ignore
    ensures var r := ScanAll(myId, s, msgs);
            r.state.target == s.target && r.state.finder == s.finder && r.state.ignore
    decreases |msgs|
  {
    if msgs != [] {
      match ScanStep(myId, s, msgs[0])
      case Threw(t) =>
      case Done(t) => LockedTargetStays(myId, t, msgs[1..]);
    }
  }

  /**
   * Finder precedence: when the scan reaches, without exception, an attack
   * report whose sender is the finder it names and nothing had locked the
   * pass yet, that report's target and finder are the pass's result,
   * whatever messages follow.
   */
  lemma FinderKeepsPriority(myId: int, s: ScanState, before: seq<Message>, m: Message, after: seq<Message>)
    requires |s.commanders| == 3
    requires ScanAll(myId, s, before).Done?
    requires var t := ScanAll(myId, s, before).state;
             !t.ignore && AttackReport(m, t.commanders) && |m.ints| >= 2 && m.ints[0] == m.ints[1]
    ensures var r := ScanAll(myId, s, before + [m] + after);
            r.state.target == m.locations[1] && r.state.finder == m.ints[1]
  {
    var t := ScanAll(myId, s, before).state;
    var u := ScanStep(myId, t, m);
    assert u == Done(t.(target := m.locations[1], finder := m.ints[1], ignore := true));
    ScanAllAppend(myId, s, before, [m] + after);
    assert before + [m] + after == before + ([m] + after);
    assert ScanAll(myId, t, [m] + after) == ScanAll(myId, u.state, after) by {
      assert ([m] + after)[0] == m && ([m] + after)[1..] == after;
    }
    LockedTargetStays(myId, u.state, after);
  }

  /** The leader's own establish-leader message, with a full roster, is
      copied into commanders and the scan goes on. */
  lemma RosterCopied(myId: int, s: ScanState, m: Message)
    requires |s.commanders| == 3 && RosterFor(m, myId) && |m.ints| >= 5
    ensures ScanStep(myId, s, m) == Done(s.(commanders := m.ints[2..5]))
  {
  }

  /**
   * The leader learns its squad: the establish-leader message it first
   * announced, after up to three archons joined it, fills commanders with
   * their IDs in joining order, zero for the empty slots.
   */
  lemma LeaderLearnsRoster(leaderId: int, squad: int, ids: seq<int>, s: ScanState)
    requires leaderId != 0 && |ids| < Election.ARCHONS_PER_TEAM && |s.commanders| == 3
    ensures ScanStep(leaderId, s, Election.Joins(Election.Announce(leaderId, squad), ids))
            == Done(s.(commanders := Election.Roster(ids)))
  {
    var m := Election.Joins(Election.Announce(leaderId, squad), ids);
    Election.RosterSlots(leaderId, squad, ids);
    RosterCopied(leaderId, s, m);
  }

  /** A pass over messages of the shapes the team broadcasts always runs to
      its end, so the leader goes on to broadcast its order. */
  lemma {:induction false} ProtocolScanCompletes(myId: int, s: ScanState, msgs: seq<Message>)
    requires |s.commanders| == 3
    requires forall i :: 0 <= i < |msgs| ==> ProtocolShaped(msgs[i])
    ensures ScanAll(myId, s, msgs).Done?
    decreases |msgs|
  {
    if msgs != [] {
      assert ProtocolShaped(msgs[0]);
      var t := ScanStep(myId, s, msgs[0]).state;
      assert forall i :: 0 <= i < |msgs[1..]| ==> ProtocolShaped(msgs[1..][i]) by {
        forall i | 0 <= i < |msgs[1..]| ensures ProtocolShaped(msgs[1..][i]) {
          assert msgs[1..][i] == msgs[i + 1];
        }
      }
      ProtocolScanCompletes(myId, t, msgs[1..]);
    }
  }
}
