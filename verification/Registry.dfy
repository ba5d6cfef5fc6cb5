// The in-process room registry: which sockets are live in which meeting, and how a
// frame reaches them. A room is the sequence of its connections in insertion order,
// which is the order a dictionary keeps.

module Registry {
  import opened Model
  import opened Protocol

  datatype Connection = Connection(id: ConnId, participantId: RowId, meetingId: MeetingId)

  type Room = seq<Connection>
  type Rooms = map<MeetingId, Room>

  /** Everything sent to each socket, oldest first. */
  type Wires = map<ConnId, seq<ServerFrame>>

  type Sockets = map<ConnId, Connection>

  /** The rows that own a socket. */
  function Owners(sockets: Sockets): set<RowId> {
    set c | c in sockets :: sockets[c].participantId
  }

  function RoomOf(rooms: Rooms, m: MeetingId): Room {
    if m in rooms then rooms[m] else []
  }

  function Added(rooms: Rooms, c: Connection): Rooms {
    rooms[c.meetingId := RoomOf(rooms, c.meetingId) + [c]]
  }

  function Without(room: Room, id: ConnId): (r: Room)
    ensures forall c :: c in r <==> c in room && c.id != id
    ensures |r| <= |room|
  {
    if room == [] then []
    else if room[0].id == id then Without(room[1..], id)
    else [room[0]] + Without(room[1..], id)
  }

  /** An empty room is dropped. */
  function Removed(rooms: Rooms, c: Connection): Rooms {
    if c.meetingId !in rooms then rooms
    else
      var rest := Without(rooms[c.meetingId], c.id);
      if rest == [] then rooms - {c.meetingId} else rooms[c.meetingId := rest]
  }

  /** The last added socket of the participant. */
  function Find(room: Room, p: RowId): (r: Option<Connection>)
    ensures r.Some? ==> r.value in room && r.value.participantId == p
    ensures r.None? <==> forall c :: c in room ==> c.participantId != p
  {
    if room == [] then None
    else if room[|room| - 1].participantId == p then Some(room[|room| - 1])
    else Find(room[..|room| - 1], p)
  }

  function Participants(room: Room): set<RowId> {
    set c | c in room :: c.participantId
  }

  function Ids(room: Room): set<ConnId> {
    set c | c in room :: c.id
  }

  function Recipients(room: Room, exclude: Option<ConnId>): set<ConnId> {
    set c | c in room && exclude != Some(c.id) :: c.id
  }

  function Delivered(wires: Wires, to: set<ConnId>, f: ServerFrame): Wires {
    map c | c in wires :: if c in to then wires[c] + [f] else wires[c]
  }

  /** A direct send goes to the found socket only. */
  function Target(room: Room, p: RowId): set<ConnId> {
    match Find(room, p)
    case None => {}
    case Some(c) => {c.id}
  }

  // --- Find returns the last surviving socket -----------------------------------------

  lemma {:induction false} FindIsLast(room: Room, p: RowId, i: nat)
    requires i < |room| && room[i].participantId == p
    ensures Find(room, p).Some?
    ensures exists k :: i <= k < |room| && Find(room, p).value == room[k]
                        && forall j :: k < j < |room| ==> room[j].participantId != p
  {
    var n := |room| - 1;
    if room[n].participantId == p {
      assert i <= n < |room| && Find(room, p).value == room[n];
    } else {
      FindIsLast(room[..n], p, i);
      var k :| i <= k < n && Find(room[..n], p).value == room[..n][k]
               && forall j :: k < j < n ==> room[..n][j].participantId != p;
      assert Find(room, p).value == room[k];
      forall j | k < j < |room| ensures room[j].participantId != p {
        if j < n { assert room[..n][j] == room[j]; }
      }
    }
  }

  predicate Chronological(room: Room) {
    forall i, j :: 0 <= i < j < |room| ==> room[i].id < room[j].id
  }

  /** In a room ordered by age, the socket found is the youngest one the participant holds there. */
  lemma {:induction false} FindIsYoungest(room: Room, p: RowId, c: Connection)
    requires Chronological(room)
    requires c in room && c.participantId == p
    ensures Find(room, p).Some? && c.id <= Find(room, p).value.id
  {
    var i :| 0 <= i < |room| && room[i] == c;
    FindIsLast(room, p, i);
  }

  lemma {:induction false} WithoutKeepsOrder(room: Room, id: ConnId)
    requires Chronological(room)
    ensures Chronological(Without(room, id))
  {
    if room != [] {
      WithoutKeepsOrder(room[1..], id);
      var rest := Without(room[1..], id);
      forall j | 0 <= j < |rest| ensures room[0].id < rest[j].id {
        assert rest[j] in rest;
        var k :| 0 <= k < |room[1..]| && room[1..][k] == rest[j];
        assert room[k + 1] == rest[j];
      }
    }
  }

  /** Removing what was just added restores the registry, whether or not the room existed. */
  lemma AddThenRemove(rooms: Rooms, c: Connection)
    requires c.meetingId in rooms ==> rooms[c.meetingId] != []
    requires forall d :: d in RoomOf(rooms, c.meetingId) ==> d.id != c.id
    ensures Removed(Added(rooms, c), c) == rooms
  {
    WithoutLast(RoomOf(rooms, c.meetingId), c);
  }

  lemma {:induction false} WithoutLast(room: Room, c: Connection)
    requires forall d :: d in room ==> d.id != c.id
    ensures Without(room + [c], c.id) == room
  {
    if room == [] {
      assert room + [c] == [c];
    } else {
      assert room[0] in room;
      assert (room + [c])[1..] == room[1..] + [c];
      WithoutLast(room[1..], c);
    }
  }

  lemma DeliveredOneMore(wires: Wires, to: set<ConnId>, c: ConnId, f: ServerFrame)
    requires c !in to
    ensures Delivered(Delivered(wires, to, f), {c}, f) == Delivered(wires, to + {c}, f)
  {
  }

  lemma RecipientsOneMore(room: Room, i: nat, exclude: Option<ConnId>)
    requires i < |room|
    ensures Recipients(room[..i + 1], exclude)
         == Recipients(room[..i], exclude) + (if exclude == Some(room[i].id) then {} else {room[i].id})
  {
    assert room[..i + 1] == room[..i] + [room[i]];
  }

  // --- The registry object ----------------------------------------------------------------

  class RoomRegistry {
    var rooms: Rooms
    var wires: Wires

    constructor ()
      ensures rooms == map[] && wires == map[]
    {
      rooms, wires := map[], map[];
    }

    /** `id` is the freshly minted connection id; nothing has been sent to the socket yet. */
    method Add(id: ConnId, m: MeetingId, p: RowId) returns (c: Connection)
      modifies this
      ensures c == Connection(id, p, m)
      ensures rooms == Added(old(rooms), c)
      ensures wires == old(wires)[id := []]
    {
      c := Connection(id, p, m);
      if m !in rooms {
        rooms := rooms[m := []];
      }
      rooms := rooms[m := rooms[m] + [c]];
      wires := wires[id := []];
    }

    method Remove(c: Connection)
      modifies this`rooms
      ensures rooms == Removed(old(rooms), c)
    {
      if c.meetingId !in rooms { return; }
      var room := Without(rooms[c.meetingId], c.id);
      rooms := rooms[c.meetingId := room];
      if room == [] {
        rooms := rooms - {c.meetingId};
        assert rooms == old(rooms) - {c.meetingId};
      }
    }

    /** The last match of a scan in insertion order. */
    method FindSocket(m: MeetingId, p: RowId) returns (r: Option<Connection>)
      ensures r == Find(RoomOf(rooms, m), p)
    {
      var room := RoomOf(rooms, m);
      r := None;
      for i := 0 to |room|
        invariant r == Find(room[..i], p)
      {
        assert room[..i + 1][..i] == room[..i];
        if room[i].participantId == p {
          r := Some(room[i]);
        }
      }
      assert room[..|room|] == room;
    }

    method IsInRoom(m: MeetingId, p: RowId) returns (present: bool)
      ensures present <==> exists c :: c in RoomOf(rooms, m) && c.participantId == p
    {
      var found := FindSocket(m, p);
      present := found.Some?;
    }

    /** Distinct participants, not sockets. */
    method Size(m: MeetingId) returns (n: nat)
      ensures n == |Participants(RoomOf(rooms, m))|
    {
      var room := RoomOf(rooms, m);
      var seen: set<RowId> := {};
      for i := 0 to |room|
        invariant seen == Participants(room[..i])
      {
        assert room[..i + 1] == room[..i] + [room[i]];
        seen := seen + {room[i].participantId};
      }
      assert room[..|room|] == room;
      n := |seen|;
    }

    /** One send on one socket. */
    method Send(c: ConnId, f: ServerFrame)
      requires c in wires
      modifies this`wires
      ensures wires == Delivered(old(wires), {c}, f)
    {
      wires := wires[c := wires[c] + [f]];
    }

    method Broadcast(m: MeetingId, f: ServerFrame, exclude: Option<ConnId>)
      requires Ids(RoomOf(rooms, m)) <= wires.Keys
      requires Chronological(RoomOf(rooms, m))
      modifies this`wires
      ensures wires == Delivered(old(wires), Recipients(RoomOf(rooms, m), exclude), f)
    {
      var room := RoomOf(rooms, m);
      assert wires == Delivered(wires, Recipients(room[..0], exclude), f);
      for i := 0 to |room|
        invariant wires == Delivered(old(wires), Recipients(room[..i], exclude), f)
      {
        assert room[i].id in Ids(room);
        RecipientsOneMore(room, i, exclude);

        DeliveredOneMore(old(wires), Recipients(room[..i], exclude), room[i].id, f);
        if exclude != Some(room[i].id) {
          Send(room[i].id, f);
        }
      }
      assert room[..|room|] == room;
    }

    method SendToParticipant(m: MeetingId, p: RowId, f: ServerFrame)
      requires Ids(RoomOf(rooms, m)) <= wires.Keys
      modifies this`wires
      ensures wires == Delivered(old(wires), Target(RoomOf(rooms, m), p), f)
    {
      var found := FindSocket(m, p);
      if found.Some? {
        assert found.value.id in Ids(RoomOf(rooms, m));
        Send(found.value.id, f);
      }
    }
  }
}
