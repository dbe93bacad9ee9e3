/**
 * Leader election among archons (designateLeader) as a function of the
 * archon's own election state and the messages it hears, and the shape of
 * the establish-leader message as archons join one after another.
 *
 * An establish-leader message carries in ints[0] the number of archons in
 * the squad, in ints[1] the leader's ID, in ints[2..4] the IDs of the
 * archons that joined, and in ints[5] the squad number.
 */
module Election {
  import opened Wrappers
  import opened Messages

  const ARCHONS_PER_TEAM: int := 4

  /** Every message's strings[0] can be compared without an exception. */
  predicate AllLabelled(msgs: seq<Message>) {
    forall i :: 0 <= i < |msgs| ==> msgs[i].HasLabel()
  }

  /** The last establish-leader message heard, if any. */
  function LastEstablish(msgs: seq<Message>): (r: Option<Message>)
    requires AllLabelled(msgs)
    ensures r.None? <==> forall i :: 0 <= i < |msgs| ==> msgs[i].Label() != ESTABLISH_LEADER
    ensures r.Some? ==> exists k :: 0 <= k < |msgs| && msgs[k] == r.value && r.value.Label() == ESTABLISH_LEADER
                          && forall j :: k < j < |msgs| ==> msgs[j].Label() != ESTABLISH_LEADER
  {
    if msgs == [] then None
    else if msgs[|msgs| - 1].Label() == ESTABLISH_LEADER then Some(msgs[|msgs| - 1])
    else LastEstablish(msgs[..|msgs| - 1])
  }

  /** The fields designateLeader changes, and what it broadcasts (zero or one message). */
  datatype ElectionState = ElectionState(leader: bool, following: int, squadID: int, broadcast: seq<Message>)

  /** "I lead; who follows?": count 1, the leader's ID, an empty roster, the squad number. */
  function Announce(myId: int, squad: int): (m: Message)
    ensures m.HasLabel() && m.Label() == ESTABLISH_LEADER
    ensures m.ints == [1, myId, 0, 0, 0, squad]
    ensures myId != 0 ==> WellFormed(m)
  {
    Message([Some(ESTABLISH_LEADER)], [1, myId, 0, 0, 0, squad], [])
  }

  /** The message an archon rebroadcasts after joining: the count goes up by
      exactly one and the new count is the index where its ID is written
      (a count of -1 becomes 0, and the ID then overwrites it). */
  function Joined(e: Message, myId: int): (m: Message)
    requires |e.ints| > 0 && 0 <= e.ints[0] + 1 < |e.ints|
    ensures m.strings == e.strings && m.locations == e.locations && |m.ints| == |e.ints|
    ensures m.ints[e.ints[0] + 1] == myId
    ensures e.ints[0] + 1 > 0 ==> m.ints[0] == e.ints[0] + 1
    ensures forall k :: 0 < k < |e.ints| && k != e.ints[0] + 1 ==> m.ints[k] == e.ints[k]
  {
    var count := e.ints[0] + 1;
    e.(ints := e.ints[0 := count][count := myId])
  }

  /** Following a leader after reading count < ARCHONS_PER_TEAM from e:
      the reads of ints[1], ints[5] and the write at the new count may each
      throw, leaving the assignments made before them. */
  function Follow(s: ElectionState, e: Message, myId: int): ElectionState
    requires |e.ints| > 0
  {
    if |e.ints| < 2 then s
    else if |e.ints| < 6 then s.(following := e.ints[1])
    else if e.ints[0] + 1 < 0 || e.ints[0] + 1 >= |e.ints| then
      s.(following := e.ints[1], squadID := e.ints[5])
    else
      s.(following := e.ints[1], squadID := e.ints[5], broadcast := [Joined(e, myId)])
  }

  /** Taking the lead: squad 2 when an establish-leader message was heard, else squad 1. */
  function Lead(s: ElectionState, heard: bool, myId: int): ElectionState {
    var squad := if heard then 2 else 1;
    s.(leader := true, squadID := squad, broadcast := [Announce(myId, squad)])
  }

  /** One call of designateLeader by the archon with ID myId. An unreadable
      label anywhere in msgs throws during the scan and changes nothing, as
      does an empty ints array on the message that is followed. */
  function Designate(leader: bool, following: int, squadID: int, msgs: seq<Message>, myId: int): ElectionState {
    var before := ElectionState(leader, following, squadID, []);
    if !AllLabelled(msgs) then before
    else
      var est := LastEstablish(msgs);
      if est.Some? && !leader && following == 0 then
        if |est.value.ints| == 0 then before
        else if est.value.ints[0] < ARCHONS_PER_TEAM then Follow(before, est.value, myId)
        else Lead(before, true, myId)
      else if !leader && following == 0 then Lead(before, est.Some?, myId)
      else before
  }

  /** The three roster slots ints[2..4] holding the IDs of the archons that
      joined, in joining order, the unused slots zero. */
  function Roster(ids: seq<int>): (r: seq<int>)
    requires |ids| <= 3
    ensures |r| == 3
    ensures forall k :: 0 <= k < |ids| ==> r[k] == ids[k]
    ensures forall k :: |ids| <= k < 3 ==> r[k] == 0
  {
    ids + seq(3 - |ids|, _ => 0)
  }

  /** The establish-leader messages the protocol itself produces: six ints,
      a count of at least one and a non-zero leader ID. */
  predicate WellFormed(m: Message) {
    m.HasLabel() && m.Label() == ESTABLISH_LEADER && |m.ints| == 6 && m.ints[0] >= 1 && m.ints[1] != 0
  }

  /**
   * A leaderless archon always settles its role: it follows the leader
   * named in the last establish-leader message when that squad has room,
   * and leads otherwise; exactly one message goes out, and it is again
   * well formed.
   */
  lemma ElectionSettles(squadID: int, msgs: seq<Message>, myId: int)
    requires AllLabelled(msgs) && myId != 0
    requires forall m :: m in msgs && m.Label() == ESTABLISH_LEADER ==> WellFormed(m)
    ensures var r := Designate(false, 0, squadID, msgs, myId);
            var est := LastEstablish(msgs);
            && (r.leader <==> r.following == 0)
            // it follows exactly when the last announcement heard has room
            && (r.leader <==> est.None? || est.value.ints[0] >= ARCHONS_PER_TEAM)
            && |r.broadcast| == 1 && WellFormed(r.broadcast[0])
            && (r.leader ==> r.squadID == (if est.Some? then 2 else 1) && r.broadcast[0] == Announce(myId, r.squadID))
            && (!r.leader ==>
                  && est.Some? && est.value.ints[0] < ARCHONS_PER_TEAM
                  && r.following == est.value.ints[1] && r.squadID == est.value.ints[5]
                  && r.broadcast[0] == Joined(est.value, myId))
  {
    var est := LastEstablish(msgs);
    if est.Some? {
      assert est.value in msgs;
    }
  }

  /** An archon that already leads or follows is left as it is. */
  lemma SettledArchonUnchanged(leader: bool, following: int, squadID: int, msgs: seq<Message>, myId: int)
    requires leader || following != 0
    ensures Designate(leader, following, squadID, msgs, myId) == ElectionState(leader, following, squadID, [])
  {
  }

  /** The establish-leader message after the archons with the given IDs
      joined, one after another, each hearing the previous rebroadcast. */
  function Joins(m: Message, ids: seq<int>): (r: Message)
    requires WellFormed(m) && m.ints[0] + |ids| <= ARCHONS_PER_TEAM
    ensures WellFormed(r) && r.ints[0] == m.ints[0] + |ids|
  {
    if ids == [] then m
    else Joined(Joins(m, ids[..|ids| - 1]), ids[|ids| - 1])
  }

  /**
   * The roster: after up to three archons joined a fresh squad, the count is
   * one more than the number of joiners, the leader's ID and the squad number
   * are intact, and the joiners' IDs sit in ints[2..4] in the order they
   * joined, the unused slots still zero.
   */
  lemma {:induction false} RosterAfterJoins(leaderId: int, squad: int, ids: seq<int>)
    requires leaderId != 0 && |ids| < ARCHONS_PER_TEAM
    ensures Joins(Announce(leaderId, squad), ids).ints
            == [1 + |ids|, leaderId] + Roster(ids) + [squad]
  {
    if ids != [] {
      var front := ids[..|ids| - 1];
      RosterAfterJoins(leaderId, squad, front);
      var before := Joins(Announce(leaderId, squad), front);
      var after := Joins(Announce(leaderId, squad), ids);
      assert after == Joined(before, ids[|ids| - 1]);
      assert after.ints == [1 + |ids|, leaderId] + Roster(ids) + [squad] by {
        assert before.ints[0] + 1 == |ids| + 1;
        forall k | 0 <= k < 6
          ensures after.ints[k] == ([1 + |ids|, leaderId] + Roster(ids) + [squad])[k]
        {
        }
      }
    }
  }

  /** The joiners' IDs, as the leader reads them from ints[2..4]. */
  lemma RosterSlots(leaderId: int, squad: int, ids: seq<int>)
    requires leaderId != 0 && |ids| < ARCHONS_PER_TEAM
    ensures var m := Joins(Announce(leaderId, squad), ids);
            m.ints[1] == leaderId && m.ints[2..5] == Roster(ids)
  {
    var ints := Joins(Announce(leaderId, squad), ids).ints;
    RosterAfterJoins(leaderId, squad, ids);
    forall k | 0 <= k < 3
      ensures ints[2..5][k] == Roster(ids)[k]
    {
      assert ints[k + 2] == ([1 + |ids|, leaderId] + Roster(ids) + [squad])[k + 2];
    }
  }
}
