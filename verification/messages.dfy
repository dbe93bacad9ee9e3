/**
 * Broadcast messages and the decoding of a direction name carried in one.
 *
 * The host's Message holds three parallel arrays. An element that is Java
 * null is None here; an array that is null is modelled as empty, since the
 * controller only ever indexes these arrays and both cases throw there.
 */
module Messages {
  import opened Wrappers
  import opened Geometry

  /** The labels and order names the controller writes into strings[0] and strings[1]. */
  const ESTABLISH_LEADER: string := "establishLeader"
  const LEADER_MSG: string := "leaderMsg"
  const ATTACK_STRING: string := "attack"
  const SPAWN_STRING: string := "spawn"
  const IDLE_STRING: string := "idle"

  datatype Message = Message(strings: seq<Option<string>>, ints: seq<int>, locations: seq<Option<Location>>)
  {
    /** strings[0] can be read and is not null, so strings[0].equals(...) does not throw. */
    predicate HasLabel() {
      |strings| > 0 && strings[0].Some?
    }

    function Label(): string
      requires HasLabel()
    {
      strings[0].value
    }
  }

  /** Upper-case form of an ASCII letter; every other character is left alone. */
  function FoldCase(c: char): char {
    if 'a' <= c <= 'z' then (c as int - 32) as char else c
  }

  /** String.equalsIgnoreCase over ASCII letters. */
  predicate EqualsIgnoreCase(a: string, b: string) {
    |a| == |b| && forall i :: 0 <= i < |a| ==> FoldCase(a[i]) == FoldCase(b[i])
  }

  lemma EqualsIgnoreCaseTransitive(a: string, b: string, c: string)
    requires EqualsIgnoreCase(a, b) && EqualsIgnoreCase(b, c)
    ensures EqualsIgnoreCase(a, c)
  {
  }

  /** Two different compass names never match, whatever the case. */
  lemma NamesDiffer(d: Direction, e: Direction)
    requires d.IsCompass() && e.IsCompass() && d != e
    ensures !EqualsIgnoreCase(d.Name(), e.Name())
  {
    var a, b := d.Name(), e.Name();
    if |a| == |b| {
      if FoldCase(a[0]) == FoldCase(b[0]) {
        // Same length and same initial: NORTH_EAST against NORTH_WEST, or
        // SOUTH_EAST against SOUTH_WEST, which part at index 6.
        assert FoldCase(a[6]) != FoldCase(b[6]);
      }
    }
  }

  /**
   * msgDirection(s): the compass point whose name s spells, ignoring case,
   * tried in the order NORTH, SOUTH, EAST, WEST, NORTH_EAST, NORTH_WEST,
   * SOUTH_EAST, SOUTH_WEST. A null string or any other text gives null;
   * NONE is never answered.
   */
  function MsgDirection(s: Option<string>): (r: Option<Direction>)
    ensures r != Some(NoDirection)
    ensures r.Some? ==> s.Some? && EqualsIgnoreCase(s.value, r.value.Name())
    ensures r.None? && s.Some? ==> forall d: Direction :: d.IsCompass() ==> !EqualsIgnoreCase(s.value, d.Name())
  {
    match s
    case None => None
    case Some(t) =>
      if EqualsIgnoreCase(t, North.Name()) then Some(North)
      else if EqualsIgnoreCase(t, South.Name()) then Some(South)
      else if EqualsIgnoreCase(t, East.Name()) then Some(East)
      else if EqualsIgnoreCase(t, West.Name()) then Some(West)
      else if EqualsIgnoreCase(t, NorthEast.Name()) then Some(NorthEast)
      else if EqualsIgnoreCase(t, NorthWest.Name()) then Some(NorthWest)
      else if EqualsIgnoreCase(t, SouthEast.Name()) then Some(SouthEast)
      else if EqualsIgnoreCase(t, SouthWest.Name()) then Some(SouthWest)
      else None
  }

  /** The name a leader broadcasts for a compass direction decodes back to
      that direction, in any mix of case. */
  lemma {:induction false} DirectionNameRoundTrip(d: Direction, s: string)
    requires d.IsCompass() && EqualsIgnoreCase(s, d.Name())
    ensures MsgDirection(Some(s)) == Some(d)
  {
    var r := MsgDirection(Some(s));
    assert r.Some?;
    if r.value != d {
      EqualsIgnoreCaseTransitive(r.value.Name(), s, d.Name());
      NamesDiffer(r.value, d);
      assert false;
    }
  }

  /** The name of NONE is not decoded: the follower gets null. */
  lemma NoneNameIsNotDecoded()
    ensures MsgDirection(Some(NoDirection.Name())) == None
  {
    var none := NoDirection.Name();
    assert FoldCase(none[0]) != FoldCase(East.Name()[0]);
    assert FoldCase(none[0]) != FoldCase(West.Name()[0]);
  }

  /** How many leading messages have an ints[0] that can be read: reading
      ints[0] of the first message with an empty ints array throws. */
  function ReadableCount(msgs: seq<Message>): (n: nat)
    ensures n <= |msgs|
    ensures forall i :: 0 <= i < n ==> |msgs[i].ints| > 0
    ensures n < |msgs| ==> |msgs[n].ints| == 0
  {
    if msgs == [] || |msgs[0].ints| == 0 then 0 else 1 + ReadableCount(msgs[1..])
  }
}
