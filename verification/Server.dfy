// The room protocol as a state machine: REST calls, and the connect, frame and teardown
// steps of the signaling socket. Each step is atomic. Steps carry every outside choice, so
// a run is a sequence of steps and `Exec` is a function.

module Server {
  import opened Model
  import opened Lifecycle
  import opened Protocol
  import opened Registry

  /** `sockets` remembers every socket ever admitted; `running` those whose handler has not finished. */
  datatype State = State(
    db: Db,
    rooms: Rooms,
    wires: Wires,
    sockets: Sockets,
    running: set<ConnId>,
    next: nat,
    clock: int)
  {
    function Room(m: MeetingId): Room {
      RoomOf(rooms, m)
    }
  }

  const INIT: State := State(Db(map[], map[]), map[], map[], map[], {}, 0, 0)

  datatype Step =
    | Tick(elapsed: nat)
    | CreateMeeting(host: UserId, start: Option<int>)
    | UpdateMeeting(m: MeetingId, user: UserId, start: Option<int>)
    | CancelMeeting(m: MeetingId, user: UserId)
    | StartMeeting(m: MeetingId, user: UserId)
    | EndMeeting(m: MeetingId, user: UserId)
    | JoinMeeting(m: MeetingId, user: UserId, passcodeOk: bool, flags: Flags)
    | LeaveMeeting(r: RowId)
    | RemoveParticipant(r: RowId, actor: UserId)
    | PatchParticipant(r: RowId, actor: UserId, changes: Changes)
    | Connect(number: MeetingId, session: RowId)
    | Receive(c: ConnId, frame: ClientFrame)
    | Teardown(c: ConnId)

  // --- Sending -------------------------------------------------------------------

  function ToSocket(s: State, c: ConnId, f: ServerFrame): State {
    s.(wires := Delivered(s.wires, {c}, f))
  }

  function ToRoom(s: State, m: MeetingId, f: ServerFrame, exclude: Option<ConnId>): State {
    s.(wires := Delivered(s.wires, Recipients(s.Room(m), exclude), f))
  }

  function ToParticipant(s: State, m: MeetingId, p: RowId, f: ServerFrame): State {
    s.(wires := Delivered(s.wires, Target(s.Room(m), p), f))
  }

  // --- Connect -------------------------------------------------------------------

  /** Everyone present in the meeting, oldest join first. */
  function ActiveRoster(rows: Rows, m: MeetingId): seq<RosterEntry> {
    var ids := Ascending(OpenRows(rows, m));
    assert forall i :: 0 <= i < |ids| ==> ids[i] in OpenRows(rows, m);
    SerializeAll(rows, ids)
  }

  /** The socket is registered, owns its row, and has been sent the snapshot. */
  function Admitted(s: State, c: Connection, p: Participant): State {
    var db := Bind(s.db, p, c.id);
    s.(db := db,
       rooms := Added(s.rooms, c),
       wires := s.wires[c.id := [RoomState(ActiveRoster(db.rows, c.meetingId), Serialize(p))]],
       sockets := s.sockets[c.id := c],
       running := s.running + {c.id},
       next := s.next + 1)
  }

  function ConnectSocket(s: State, number: MeetingId, session: RowId): State {
    match Authenticate(s.db, number, session)
    case Err(_) => s
    case Ok(p) =>
      var c := Connection(s.next, p.id, p.meetingId);
      if !RoomHasSpace(s.db, p.meetingId) then s.(next := s.next + 1)
      else ToRoom(Admitted(s, c, p), c.meetingId, PeerJoined(Serialize(p)), Some(c.id))
  }

  // --- Frame handlers --------------------------------------------------------------

  function Announced(s: State, m: MeetingId, r: RowId): State
    requires r in s.db.rows
  {
    ToRoom(s, m, PeerUpdated(r, s.db.rows[r].flags), None)
  }

  function HandleSignal(s: State, c: Connection, kind: SignalKind, to: Option<RowId>, payload: nat): State {
    if to.None? then ToSocket(s, c.id, Error(BadFrame))
    else if Find(s.Room(c.meetingId), to.value).None? then ToSocket(s, c.id, Error(PeerNotInRoom))
    else ToParticipant(s, c.meetingId, to.value, Relayed(kind, c.participantId, payload))
  }

  function HandleStateUpdate(s: State, c: Connection, changes: Changes): State {
    match ApplyStateUpdate(s.db, c.participantId, changes)
    case Err(e) => ToSocket(s, c.id, Error(e))
    case Ok(db) =>
      if c.participantId !in db.rows then s
      else Announced(s.(db := db), c.meetingId, c.participantId)
  }

  function MuteNotice(s: State, c: Connection, r: RowId): State
    requires r in s.db.rows
  {
    Announced(ToParticipant(s, c.meetingId, r, HostMutedYou(c.participantId)), c.meetingId, r)
  }

  function HandleHostMute(s: State, c: Connection, target: Option<RowId>): State {
    if target.None? then ToSocket(s, c.id, Error(BadFrame))
    else if c.participantId !in s.db.rows then ToSocket(s, c.id, Error(InvalidSession))
    else
      match HostMute(s.db, s.db.rows[c.participantId], target.value)
      case Err(e) => ToSocket(s, c.id, Error(e))
      case Ok(db) => if target.value !in db.rows then s else MuteNotice(s.(db := db), c, target.value)
  }

  function MuteNotices(s: State, c: Connection, ids: seq<RowId>): State
    requires forall i :: 0 <= i < |ids| ==> ids[i] in s.db.rows
    ensures MuteNotices(s, c, ids).db == s.db
    ensures MuteNotices(s, c, ids) == s.(wires := MuteNotices(s, c, ids).wires)
    ensures MuteNotices(s, c, ids).wires.Keys == s.wires.Keys
    decreases |ids|
  {
    if ids == [] then s else MuteNotices(MuteNotice(s, c, ids[0]), c, ids[1..])
  }

  function HandleHostMuteAll(s: State, c: Connection): State {
    if c.participantId !in s.db.rows then ToSocket(s, c.id, Error(InvalidSession))
    else
      var actor := s.db.rows[c.participantId];
      match HostMuteAll(s.db, actor)
      case Err(e) => ToSocket(s, c.id, Error(e))
      case Ok(db) =>
        var ids := Ascending(Mutable(s.db, actor));
        assert forall i :: 0 <= i < |ids| ==> ids[i] in Mutable(s.db, actor);
        MuteNotices(s.(db := db), c, ids)
  }

  /** The socket a removal closes: the one its participant is looking at. */
  function ClosedParticipant(rooms: Rooms, m: MeetingId, p: RowId): Rooms {
    match Find(RoomOf(rooms, m), p)
    case None => rooms
    case Some(c) => Removed(rooms, c)
  }

  function HandleHostRemove(s: State, c: Connection, target: Option<RowId>): State {
    if target.None? then ToSocket(s, c.id, Error(BadFrame))
    else if c.participantId !in s.db.rows then ToSocket(s, c.id, Error(InvalidSession))
    else
      match HostRemove(s.db, s.db.rows[c.participantId], target.value, s.clock)
      case Err(e) => ToSocket(s, c.id, Error(e))
      case Ok(db) =>
        var told := ToParticipant(s.(db := db), c.meetingId, target.value, HostRemovedYou(c.participantId));
        var left := ToRoom(told, c.meetingId, PeerLeft(target.value), None);
        left.(rooms := ClosedParticipant(left.rooms, c.meetingId, target.value))
  }

  /** Every listed connection but one leaves the registry. */
  function RemovedAllBut(rooms: Rooms, peers: seq<Connection>, keep: ConnId): Rooms {
    if peers == [] then rooms
    else RemovedAllBut(if peers[0].id == keep then rooms else Removed(rooms, peers[0]), peers[1..], keep)
  }

  function HandleHostEnd(s: State, c: Connection): State {
    if c.participantId !in s.db.rows then ToSocket(s, c.id, Error(InvalidSession))
    else
      match HostEnd(s.db, s.db.rows[c.participantId], s.clock)
      case Err(e) => ToSocket(s, c.id, Error(e))
      case Ok(db) =>
        var told := ToRoom(s.(db := db), c.meetingId, MeetingEnded(c.participantId), None);
        told.(rooms := RemovedAllBut(told.rooms, told.Room(c.meetingId), c.id))
  }

  function Handle(s: State, c: Connection, frame: ClientFrame): State {
    match frame
    case Ping => ToSocket(s, c.id, Pong)
    case Signal(kind, to, payload) => HandleSignal(s, c, kind, to, payload)
    case StateUpdate(changes) => HandleStateUpdate(s, c, changes)
    case ChatSend(body) => ToRoom(s, c.meetingId, ChatMessage(c.participantId, body), None)
    case HostMuteFrame(target) => HandleHostMute(s, c, target)
    case HostMuteAllFrame => HandleHostMuteAll(s, c)
    case HostRemoveFrame(target) => HandleHostRemove(s, c, target)
    case HostEndFrame => HandleHostEnd(s, c)
    case Unrecognized => ToSocket(s, c.id, Error(UnknownFrame))
  }

  // --- Teardown --------------------------------------------------------------------

  function TeardownSocket(s: State, c: Connection): State {
    var gone := s.(rooms := Removed(s.rooms, c), running := s.running - {c.id});
    match Release(s.db, c.participantId, c.id, s.clock)
    case None => gone
    case Some(db) => ToRoom(gone.(db := db), c.meetingId, PeerLeft(c.participantId), None)
  }

  // --- Runs ------------------------------------------------------------------------

  function Apply(s: State, step: Step): State {
    match step
    case Tick(elapsed) => s.(clock := s.clock + elapsed)
    case CreateMeeting(host, start) =>
      s.(db := Create(s.db, s.next, host, start, s.clock).Or(s.db), next := s.next + 1)
    case UpdateMeeting(m, user, start) => s.(db := Update(s.db, m, user, start, s.clock).Or(s.db))
    case CancelMeeting(m, user) => s.(db := Cancel(s.db, m, user).Or(s.db))
    case StartMeeting(m, user) => s.(db := Start(s.db, m, user, s.clock).Or(s.db))
    case EndMeeting(m, user) => s.(db := End(s.db, m, user, s.clock).Or(s.db))
    case JoinMeeting(m, user, ok, flags) =>
      s.(db := Join(s.db, s.next, m, user, ok, flags, s.clock).Or(s.db), next := s.next + 1)
    case LeaveMeeting(r) => s.(db := Leave(s.db, r, s.clock).Or(s.db))
    case RemoveParticipant(r, actor) => s.(db := Remove(s.db, r, actor, s.clock).Or(s.db))
    case PatchParticipant(r, actor, c) => s.(db := PatchRow(s.db, r, actor, c).Or(s.db))
    case Connect(number, session) => ConnectSocket(s, number, session)
    case Receive(c, frame) => if c in s.running && c in s.sockets then Handle(s, s.sockets[c], frame) else s
    case Teardown(c) => if c in s.running && c in s.sockets then TeardownSocket(s, s.sockets[c]) else s
  }

  function Exec(s: State, steps: seq<Step>): State {
    if steps == [] then s else Apply(Exec(s, steps[..|steps| - 1]), steps[|steps| - 1])
  }
}
