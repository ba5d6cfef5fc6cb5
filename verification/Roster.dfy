// What a socket's log says about who is in the room, and why it is always what the
// tables say: the server's half of replica agreement.

module Roster {
  import opened Model
  import opened Lifecycle
  import LifecycleProofs
  import opened Protocol
  import opened Registry
  import opened Server
  import opened ServerProofs
  import opened Guarantees
  import Isolation
  import opened MeetingStore

  /** The roster a listener has heard of, until it is told to leave. */
  datatype Heard = Heard(left: bool, roster: MeetingStore.Roster)

  function Hear(h: Heard, f: ServerFrame): Heard {
    if h.left then h
    else
      match f
      case RoomState(participants, _) => h.(roster := FromSnapshot(participants))
      case PeerJoined(p) => h.(roster := h.roster[p.id := p])
      case PeerLeft(r) => h.(roster := h.roster - {r})
      case PeerUpdated(r, flags) =>
        h.(roster := if r in h.roster then h.roster[r := h.roster[r].(flags := flags)] else h.roster)
      case HostRemovedYou(_) => Heard(true, map[])
      case MeetingEnded(_) => Heard(true, map[])
      case _ => h
  }

  function HearAll(h: Heard, frames: seq<ServerFrame>): Heard {
    if frames == [] then h else Hear(HearAll(h, frames[..|frames| - 1]), frames[|frames| - 1])
  }

  /** What a whole log says, from its first frame. */
  function Log(wire: seq<ServerFrame>): Heard {
    HearAll(Heard(false, map[]), wire)
  }

  lemma LogAppends(wire: seq<ServerFrame>, f: ServerFrame)
    ensures Log(wire + [f]) == Hear(Log(wire), f)
  {
    assert (wire + [f])[..|wire|] == wire;
  }

  // --- Agreement -------------------------------------------------------------------------

  predicate Present(db: Db, m: MeetingId, r: RowId) {
    r in db.rows && db.rows[r].meetingId == m && db.rows[r].leftAt.None?
  }

  /** Heard entries are the present rows, word for word, and no present row that ever connected is missing. */
  ghost predicate Agrees(db: Db, m: MeetingId, connected: set<RowId>, h: Heard) {
    h.left ||
    (&& (forall r :: r in connected && Present(db, m, r) ==> r in h.roster)
     && (forall r :: r in h.roster ==> Present(db, m, r) && h.roster[r] == Serialize(db.rows[r])))
  }

  /** The rows some socket was ever admitted for. */
  function Connected(s: State): set<RowId> {
    Owners(s.sockets)
  }

  ghost predicate AllAgree(s: State) {
    forall m, c :: c in RoomOf(s.rooms, m) ==> c.id in s.wires && Agrees(s.db, m, Connected(s), Log(s.wires[c.id]))
  }

  /** Rows close and flags change through the socket only. */
  predicate ThroughTheSocket(step: Step) {
    !step.EndMeeting? && !step.LeaveMeeting? && !step.RemoveParticipant? && !step.PatchParticipant?
  }

  // --- One listener, one change --------------------------------------------------------------

  lemma ActiveRosterLists(db: Db, m: MeetingId)
    requires forall r :: r in db.rows ==> db.rows[r].id == r
    ensures var entries := ActiveRoster(db.rows, m);
            && (forall i, j :: 0 <= i < j < |entries| ==> entries[i].id < entries[j].id)
            && (forall i :: 0 <= i < |entries| ==>
                  Present(db, m, entries[i].id) && entries[i] == Serialize(db.rows[entries[i].id]))
            && (forall r :: Present(db, m, r) ==> exists i :: 0 <= i < |entries| && entries[i].id == r)
  {
    var entries := ActiveRoster(db.rows, m);
    var ids := Ascending(OpenRows(db.rows, m));
    forall i | 0 <= i < |ids| ensures entries[i].id == ids[i] && ids[i] in OpenRows(db.rows, m) {
      assert ids[i] in ids;
    }
    forall r | Present(db, m, r) ensures exists i :: 0 <= i < |entries| && entries[i].id == r {
      assert r in OpenRows(db.rows, m);
      var i :| 0 <= i < |ids| && ids[i] == r;
      assert entries[i].id == r;
    }
  }

  lemma SnapshotAgrees(db: Db, m: MeetingId, connected: set<RowId>, you: RosterEntry)
    requires forall r :: r in db.rows ==> db.rows[r].id == r
    ensures Agrees(db, m, connected, Log([RoomState(ActiveRoster(db.rows, m), you)]))
  {
    hide ActiveRoster;
    hide Serialize;
    var entries := ActiveRoster(db.rows, m);
    ActiveRosterLists(db, m);
    SnapshotReadsBack(entries);
    LogAppends([], RoomState(entries, you));
    assert [] + [RoomState(entries, you)] == [RoomState(entries, you)];
    assert Log([RoomState(entries, you)]).roster == FromSnapshot(entries);
  }

  /** Rows of the meeting are untouched, up to new ones that have not connected. */
  ghost predicate SameIn(a: Db, b: Db, m: MeetingId, connected: set<RowId>) {
    && (forall r :: Present(a, m, r) ==> Present(b, m, r) && Serialize(b.rows[r]) == Serialize(a.rows[r]))
    && (forall r :: Present(b, m, r) && r in connected ==> Present(a, m, r))
  }

  lemma AgreesUndisturbed(a: Db, b: Db, m: MeetingId, before: set<RowId>, after: set<RowId>, h: Heard)
    requires Agrees(a, m, before, h) && SameIn(a, b, m, after)
    requires forall r :: r in after && r !in before ==> !Present(b, m, r)
    ensures Agrees(b, m, after, h)
  {
  }

  lemma JoinerAgrees(db: Db, m: MeetingId, connected: set<RowId>, h: Heard, p: Participant)
    requires Agrees(db, m, connected, h)
    requires p.id in db.rows && db.rows[p.id] == p && Present(db, m, p.id)
    ensures Agrees(db, m, connected + {p.id}, Hear(h, PeerJoined(Serialize(p))))
  {
  }

  lemma LeaverAgrees(a: Db, b: Db, m: MeetingId, connected: set<RowId>, h: Heard, r: RowId)
    requires Agrees(a, m, connected, h)
    requires b.rows.Keys == a.rows.Keys && !Present(b, m, r)
    requires forall k :: k in a.rows && k != r ==> b.rows[k] == a.rows[k]
    ensures Agrees(b, m, connected, Hear(h, PeerLeft(r)))
  {
  }

  lemma UpdateAgrees(a: Db, b: Db, m: MeetingId, connected: set<RowId>, h: Heard, r: RowId)
    requires Agrees(a, m, connected, h)
    requires r in a.rows && b.rows.Keys == a.rows.Keys && b.rows[r] == a.rows[r].(flags := b.rows[r].flags)
    requires forall k :: k in a.rows && k != r ==> b.rows[k] == a.rows[k]
    ensures Agrees(b, m, connected, Hear(h, PeerUpdated(r, b.rows[r].flags)))
  {
  }

  predicate Silent(f: ServerFrame) {
    !f.RoomState? && !f.PeerJoined? && !f.PeerLeft? && !f.PeerUpdated?
  }

  lemma SilenceAgrees(db: Db, m: MeetingId, connected: set<RowId>, h: Heard, f: ServerFrame)
    requires Agrees(db, m, connected, h) && Silent(f)
    ensures Agrees(db, m, connected, Hear(h, f))
  {
  }

  // --- The room hears one frame ------------------------------------------------------------

  ghost predicate Ready(s: State) {
    && RoomsOk(s) && AllAgree(s)
    && forall r :: r in s.db.rows ==> s.db.rows[r].id == r
  }

  /** What a listener in room `m` has heard after a broadcast to room `k`. */
  lemma HeardBroadcast(s: State, k: MeetingId, f: ServerFrame, m: MeetingId, c: Connection)
    requires RoomsOk(s) && c in s.Room(m) && c.id in s.wires
    ensures Log(ToRoom(s, k, f, None).wires[c.id])
         == if m == k then Hear(Log(s.wires[c.id]), f) else Log(s.wires[c.id])
  {
    assert Recipients(s.Room(k), None) == Ids(s.Room(k));
  }

  lemma SilentDelivery(s: State, to: set<ConnId>, f: ServerFrame)
    requires AllAgree(s) && Silent(f)
    ensures AllAgree(s.(wires := Delivered(s.wires, to, f)))
  {
    var t := s.(wires := Delivered(s.wires, to, f));
    forall m, c | c in RoomOf(t.rooms, m) ensures c.id in t.wires && Agrees(t.db, m, Connected(t), Log(t.wires[c.id])) {
      assert c in s.Room(m);
    }
  }

  /** One row changed, its room heard of it; the other rooms had nothing to hear. */
  lemma ElsewhereUndisturbed(a: Db, b: Db, r: RowId, m: MeetingId, connected: set<RowId>)
    requires b.rows.Keys == a.rows.Keys && r in a.rows && a.rows[r].meetingId != m && b.rows[r].meetingId != m
    requires forall k :: k in a.rows && k != r ==> b.rows[k] == a.rows[k]
    ensures SameIn(a, b, m, connected)
  {
  }

  lemma UpdateHeard(s: State, r: RowId, flags: Flags, k: MeetingId)
    requires Ready(s) && r in s.db.rows && s.db.rows[r].meetingId == k
    ensures var moved := s.(db := WithRow(s.db, s.db.rows[r].(flags := flags)));
            r in moved.db.rows && AllAgree(Announced(moved, k, r))
  {
    hide Agrees;
    var b := WithRow(s.db, s.db.rows[r].(flags := flags));
    var moved := s.(db := b);
    var t := Announced(moved, k, r);
    forall m, c | c in RoomOf(t.rooms, m) ensures c.id in t.wires && Agrees(t.db, m, Connected(t), Log(t.wires[c.id])) {
      assert c in s.Room(m);
      if m == k {
        UpdateAgrees(s.db, b, m, Connected(s), Log(s.wires[c.id]), r);
      } else {
        AgreesUndisturbed(s.db, b, m, Connected(s), Connected(s), Log(s.wires[c.id]));
      }
    }
  }

  lemma DepartureHeard(s: State, r: RowId, now: int, k: MeetingId)
    requires Ready(s) && r in s.db.rows && s.db.rows[r].meetingId == k
    ensures AllAgree(ToRoom(s.(db := WithRow(s.db, Closed(s.db.rows[r], now))), k, PeerLeft(r), None))
  {
    hide Agrees;
    var b := WithRow(s.db, Closed(s.db.rows[r], now));
    var moved := s.(db := b);
    var t := ToRoom(moved, k, PeerLeft(r), None);
    forall m, c | c in RoomOf(t.rooms, m) ensures c.id in t.wires && Agrees(t.db, m, Connected(t), Log(t.wires[c.id])) {
      assert c in s.Room(m);
      HeardBroadcast(moved, k, PeerLeft(r), m, c);
      if m == k {
        LeaverAgrees(s.db, b, m, Connected(s), Log(s.wires[c.id]), r);
      } else {
        ElsewhereUndisturbed(s.db, b, r, m, Connected(s));
        AgreesUndisturbed(s.db, b, m, Connected(s), Connected(s), Log(s.wires[c.id]));
      }
    }
  }

  /** Dropping sockets from the registry leaves fewer listeners to answer for. */
  lemma FewerListeners(s: State, rooms: Rooms)
    requires AllAgree(s)
    requires forall m, c :: c in RoomOf(rooms, m) ==> c in s.Room(m)
    ensures AllAgree(s.(rooms := rooms))
  {
  }

  lemma {:induction false} RemovedAllButIsFewer(rooms: Rooms, peers: seq<Connection>, keep: ConnId)
    ensures forall m, d :: d in RoomOf(RemovedAllBut(rooms, peers, keep), m) ==> d in RoomOf(rooms, m)
    decreases |peers|
  {
    if peers != [] {
      RemovedAllButIsFewer(if peers[0].id == keep then rooms else Removed(rooms, peers[0]), peers[1..], keep);
    }
  }

  // --- Each step ------------------------------------------------------------------------------

  lemma SilentlyReady(s: State, to: set<ConnId>, f: ServerFrame)
    requires Ready(s) && Silent(f)
    ensures Ready(s.(wires := Delivered(s.wires, to, f)))
  {
  }

  lemma StateUpdateAgrees(s: State, c: Connection, changes: Changes)
    requires Ready(s) && SocketsOk(s) && c.id in s.sockets && s.sockets[c.id] == c
    ensures AllAgree(HandleStateUpdate(s, c, changes))
  {
    hide Ready;
    hide AllAgree;
    hide RoomsOk;

    UpdateHeard(s, c.participantId, Patched(s.db.rows[c.participantId].flags, changes), c.meetingId);
  }

  lemma ReadyFacts(s: State)
    requires Ready(s)
    ensures AllAgree(s) && forall r :: r in s.db.rows ==> s.db.rows[r].id == r
  {
  }

  lemma HostMuteAgrees(s: State, c: Connection, target: Option<RowId>)
    requires Ready(s) && SocketsOk(s) && c.id in s.sockets && s.sockets[c.id] == c
    ensures AllAgree(HandleHostMute(s, c, target))
  {
    hide Ready;
    hide AllAgree;
    hide RoomsOk;
    ReadyFacts(s);
    if target.None? {
      SilentDelivery(s, {c.id}, Error(BadFrame));
    } else {
      match HostMute(s.db, s.db.rows[c.participantId], target.value) {
        case Err(e) => SilentDelivery(s, {c.id}, Error(e));
        case Ok(_) =>
          var told := ToParticipant(s, c.meetingId, target.value, HostMutedYou(c.participantId));
          SilentlyReady(s, Target(s.Room(c.meetingId), target.value), HostMutedYou(c.participantId));
          UpdateHeard(told, target.value, s.db.rows[target.value].flags.(muted := true), c.meetingId);
      }
    }
  }

  lemma HostRemoveAgrees(s: State, c: Connection, target: Option<RowId>)
    requires Ready(s) && SocketsOk(s) && c.id in s.sockets && s.sockets[c.id] == c
    ensures AllAgree(HandleHostRemove(s, c, target))
  {
    hide Ready;
    hide AllAgree;
    hide RoomsOk;
    ReadyFacts(s);
    if target.None? {
      SilentDelivery(s, {c.id}, Error(BadFrame));
    } else {
      match HostRemove(s.db, s.db.rows[c.participantId], target.value, s.clock) {
        case Err(e) => SilentDelivery(s, {c.id}, Error(e));
        case Ok(db) =>
          var told := ToParticipant(s, c.meetingId, target.value, HostRemovedYou(c.participantId));
          SilentlyReady(s, Target(s.Room(c.meetingId), target.value), HostRemovedYou(c.participantId));
          DepartureHeard(told, target.value, s.clock, c.meetingId);
          var left := ToRoom(told.(db := db), c.meetingId, PeerLeft(target.value), None);
          var rooms := ClosedParticipant(left.rooms, c.meetingId, target.value);
          FewerListeners(left, rooms);
          assert left.(rooms := rooms) == HandleHostRemove(s, c, target);
      }
    }
  }

  /** Nobody in the ended room still listens; the other rooms are untouched. */
  lemma EndHeard(s: State, meeting: Meeting, now: int, actor: RowId)
    requires Ready(s) && SocketsOk(s)
    ensures AllAgree(ToRoom(s.(db := EndedAndEvicted(s.db, meeting, now)), meeting.id, MeetingEnded(actor), None))
  {
    hide Agrees;
    var b := EndedAndEvicted(s.db, meeting, now);
    var t := ToRoom(s.(db := b), meeting.id, MeetingEnded(actor), None);
    forall m, c | c in RoomOf(t.rooms, m) ensures c.id in t.wires && Agrees(t.db, m, Connected(t), Log(t.wires[c.id])) {
      assert c in s.Room(m);
      if m == meeting.id {
        NothingLeftToHear(b, m, Connected(s), Log(s.wires[c.id]), actor);
      } else {
        AgreesUndisturbed(s.db, b, m, Connected(s), Connected(s), Log(s.wires[c.id]));
      }
    }
  }

  lemma NothingLeftToHear(db: Db, m: MeetingId, connected: set<RowId>, h: Heard, actor: RowId)
    ensures Agrees(db, m, connected, Hear(h, MeetingEnded(actor)))
  {
  }

  lemma HostEndAgrees(s: State, c: Connection)
    requires Ready(s) && SocketsOk(s) && c.id in s.sockets && s.sockets[c.id] == c
    requires forall m :: m in s.db.meetings ==> s.db.meetings[m].id == m
    ensures AllAgree(HandleHostEnd(s, c))
  {
    hide Ready;
    hide AllAgree;
    hide RoomsOk;
    hide EndedAndEvicted;
    ReadyFacts(s);
    match RequireHost(s.db, s.db.rows[c.participantId]) {
      case Err(e) => SilentDelivery(s, {c.id}, Error(e));
      case Ok(meeting) =>
        EndHeard(s, meeting, s.clock, c.participantId);
        var told := ToRoom(s.(db := EndedAndEvicted(s.db, meeting, s.clock)), c.meetingId,
            MeetingEnded(c.participantId), None);
        RemovedAllButIsFewer(told.rooms, told.Room(c.meetingId), c.id);
        FewerListeners(told, RemovedAllBut(told.rooms, told.Room(c.meetingId), c.id));
    }
  }

  lemma TeardownAgrees(s: State, c: Connection)
    requires Ready(s) && SocketsOk(s) && c.id in s.sockets && s.sockets[c.id] == c
    ensures AllAgree(TeardownSocket(s, c))
  {
    hide AllAgree;

    FewerListeners(s, Removed(s.rooms, c));
    var gone := s.(rooms := Removed(s.rooms, c), running := s.running - {c.id});
    RunningDoesNotMatter(s.(rooms := Removed(s.rooms, c)), s.running - {c.id});
    RemovalReady(s, c);
    if Release(s.db, c.participantId, c.id, s.clock).Some? {
      DepartureHeard(gone, c.participantId, s.clock, c.meetingId);
    }
  }

  lemma RunningDoesNotMatter(s: State, running: set<ConnId>)
    requires AllAgree(s)
    ensures AllAgree(s.(running := running))
  {
    assert Connected(s.(running := running)) == Connected(s);
  }

  lemma RemovalReady(s: State, c: Connection)
    requires RoomsOk(s) && c.id in s.sockets && s.sockets[c.id] == c
    ensures RoomsOk(s.(rooms := Removed(s.rooms, c), running := s.running - {c.id}))
  {
    RemovalKeepsRooms(s, c);
    var t := s.(rooms := Removed(s.rooms, c), running := s.running - {c.id});
    forall m, d | m in t.rooms && d in t.rooms[m] ensures d.id in t.running {
      assert d in s.rooms[m];
    }
  }

  // --- Muting everyone: between the table and the notices ----------------------------------------

  /** Agreement but for the flags of rows in `todo`, whose notices are still to come. */
  ghost predicate PartlyAgrees(db: Db, m: MeetingId, connected: set<RowId>, h: Heard, todo: set<RowId>) {
    h.left ||
    (&& (forall r :: r in connected && Present(db, m, r) ==> r in h.roster)
     && (forall r :: r in h.roster ==>
           && Present(db, m, r)
           && h.roster[r].(flags := db.rows[r].flags) == Serialize(db.rows[r])
           && (r !in todo ==> h.roster[r].flags == db.rows[r].flags)))
  }

  ghost predicate AllPartlyAgree(s: State, m: MeetingId, todo: set<RowId>) {
    && (forall c :: c in RoomOf(s.rooms, m) ==>
        c.id in s.wires && PartlyAgrees(s.db, m, Connected(s), Log(s.wires[c.id]), todo))
    && (forall k, c :: k != m && c in RoomOf(s.rooms, k) ==>
        c.id in s.wires && Agrees(s.db, k, Connected(s), Log(s.wires[c.id])))
  }

  lemma MutingPartlyAgrees(s: State, m: MeetingId, ids: set<RowId>)
    requires AllAgree(s) && ids <= OpenRows(s.db.rows, m)
    ensures AllPartlyAgree(s.(db := s.db.(rows := Muted(s.db.rows, ids))), m, ids)
  {
    var b := s.db.(rows := Muted(s.db.rows, ids));
    var t := s.(db := b);
    assert Connected(t) == Connected(s);
    forall c | c in RoomOf(t.rooms, m) ensures PartlyAgrees(b, m, Connected(t), Log(t.wires[c.id]), ids) {
      assert Agrees(s.db, m, Connected(s), Log(s.wires[c.id]));
    }
    forall k, c | k != m && c in RoomOf(t.rooms, k) ensures Agrees(b, k, Connected(t), Log(t.wires[c.id])) {
    }
  }

  lemma NoticePartlyAgrees(db: Db, m: MeetingId, connected: set<RowId>, h: Heard, todo: set<RowId>, r: RowId)
    requires PartlyAgrees(db, m, connected, h, todo) && r in db.rows
    ensures PartlyAgrees(db, m, connected, Hear(h, PeerUpdated(r, db.rows[r].flags)), todo - {r})
  {
  }

  lemma SilencePartlyAgrees(db: Db, m: MeetingId, connected: set<RowId>, h: Heard, todo: set<RowId>, f: ServerFrame)
    requires PartlyAgrees(db, m, connected, h, todo) && Silent(f)
    ensures PartlyAgrees(db, m, connected, Hear(h, f), todo)
  {
  }

  lemma SilentPartDelivery(s: State, m: MeetingId, todo: set<RowId>, to: set<ConnId>, f: ServerFrame)
    requires AllPartlyAgree(s, m, todo) && Silent(f)
    ensures AllPartlyAgree(s.(wires := Delivered(s.wires, to, f)), m, todo)
  {
    hide Agrees;
    hide PartlyAgrees;
    var t := s.(wires := Delivered(s.wires, to, f));
    assert Connected(t) == Connected(s);
    forall c | c in RoomOf(t.rooms, m)
      ensures c.id in t.wires && PartlyAgrees(t.db, m, Connected(t), Log(t.wires[c.id]), todo) {
      LogAppends(s.wires[c.id], f);
      SilencePartlyAgrees(s.db, m, Connected(s), Log(s.wires[c.id]), todo, f);
    }
    forall k, c | k != m && c in RoomOf(t.rooms, k)
      ensures c.id in t.wires && Agrees(t.db, k, Connected(t), Log(t.wires[c.id])) {
      LogAppends(s.wires[c.id], f);
      SilenceAgrees(s.db, k, Connected(s), Log(s.wires[c.id]), f);
    }
  }

  lemma NoticeHeard(s: State, m: MeetingId, todo: set<RowId>, r: RowId)
    requires RoomsOk(s) && AllPartlyAgree(s, m, todo) && r in s.db.rows
    ensures AllPartlyAgree(Announced(s, m, r), m, todo - {r})
  {
    hide Agrees;
    hide PartlyAgrees;
    var t := Announced(s, m, r);
    assert Connected(t) == Connected(s);
    forall c | c in RoomOf(t.rooms, m)
      ensures c.id in t.wires && PartlyAgrees(t.db, m, Connected(t), Log(t.wires[c.id]), todo - {r}) {
      NoticePartlyAgrees(s.db, m, Connected(s), Log(s.wires[c.id]), todo, r);
    }
    forall k, c | k != m && c in RoomOf(t.rooms, k)
      ensures c.id in t.wires && Agrees(t.db, k, Connected(t), Log(t.wires[c.id])) {
    }
  }

  lemma {:induction false} NoticesHeard(s: State, c: Connection, ids: seq<RowId>, todo: set<RowId>)
    requires RoomsOk(s) && AllPartlyAgree(s, c.meetingId, todo)
    requires forall i :: 0 <= i < |ids| ==> ids[i] in s.db.rows
    ensures AllPartlyAgree(MuteNotices(s, c, ids), c.meetingId, todo - (set r | r in ids))
    decreases |ids|
  {
    hide AllPartlyAgree;
    if ids == [] {
      assert todo - (set r | r in ids) == todo;
    } else {
      var told := ToParticipant(s, c.meetingId, ids[0], HostMutedYou(c.participantId));
      SilentPartDelivery(s, c.meetingId, todo, Target(s.Room(c.meetingId), ids[0]), HostMutedYou(c.participantId));
      NoticeHeard(told, c.meetingId, todo, ids[0]);
      NoticesHeard(MuteNotice(s, c, ids[0]), c, ids[1..], todo - {ids[0]});
      assert todo - {ids[0]} - (set r | r in ids[1..]) == todo - (set r | r in ids) by {
        assert ids == [ids[0]] + ids[1..];
      }
    }
  }

  lemma NothingLeftToAnnounce(s: State, m: MeetingId)
    requires AllPartlyAgree(s, m, {})
    ensures AllAgree(s)
  {
    forall k, c | c in s.Room(k) ensures c.id in s.wires && Agrees(s.db, k, Connected(s), Log(s.wires[c.id])) {
      if k == m {
        assert PartlyAgrees(s.db, m, Connected(s), Log(s.wires[c.id]), {});
      }
    }
  }

  lemma HostMuteAllAgrees(s: State, c: Connection)
    requires Ready(s) && SocketsOk(s) && c.id in s.sockets && s.sockets[c.id] == c
    ensures AllAgree(HandleHostMuteAll(s, c))
  {
    hide Ready;
    hide AllAgree;
    hide AllPartlyAgree;
    hide RoomsOk;
    ReadyFacts(s);
    var actor := s.db.rows[c.participantId];
    match HostMuteAll(s.db, actor) {
      case Err(e) => SilentDelivery(s, {c.id}, Error(e));
      case Ok(db) =>
        var ids := Ascending(Mutable(s.db, actor));
        assert forall i :: 0 <= i < |ids| ==> ids[i] in Mutable(s.db, actor);
        MutingPartlyAgrees(s, c.meetingId, Mutable(s.db, actor));
        ReadyRooms(s, s.(db := db));
        NoticesHeard(s.(db := db), c, ids, Mutable(s.db, actor));
        assert Mutable(s.db, actor) - (set r | r in ids) == {};
        NothingLeftToAnnounce(HandleHostMuteAll(s, c), c.meetingId);
    }
  }

  lemma ReadyRooms(s: State, t: State)
    requires Ready(s) && t == s.(db := t.db)
    ensures RoomsOk(t)
  {
  }

  // --- Connecting ----------------------------------------------------------------------------------

  lemma NewcomerAgrees(s: State, c: Connection, p: Participant, m: MeetingId)
    requires Invariant(s) && c == Connection(s.next, p.id, p.meetingId)
    requires p.id in s.db.rows && s.db.rows[p.id] == p
    ensures var t := ToRoom(Admitted(s, c, p), p.meetingId, PeerJoined(Serialize(p)), Some(c.id));
            c.id in t.wires && Agrees(t.db, p.meetingId, Connected(t), Log(t.wires[c.id]))
  {
    hide LifecycleProofs.Invariant;
    hide Agrees;
    hide ActiveRoster;
    InvariantFacts(s);
    var t := ToRoom(Admitted(s, c, p), p.meetingId, PeerJoined(Serialize(p)), Some(c.id));
    assert forall r :: r in t.db.rows ==> t.db.rows[r].id == r;
    SnapshotAgrees(t.db, p.meetingId, Connected(t), Serialize(p));
    assert c.id !in Recipients(t.Room(p.meetingId), Some(c.id));
  }

  lemma BindingGoesUnheard(s: State, c: Connection, p: Participant, m: MeetingId, h: Heard)
    requires p.id in s.db.rows && s.db.rows[p.id] == p && p.leftAt.None?
    requires Agrees(s.db, m, Connected(s), h)
    ensures var b := Bind(s.db, p, c.id);
            if m == p.meetingId then Agrees(b, m, Connected(s) + {p.id}, Hear(h, PeerJoined(Serialize(p))))
            else Agrees(b, m, Connected(s) + {p.id}, h)
  {
    hide Agrees;
    var b := Bind(s.db, p, c.id);
    assert SameIn(s.db, b, m, Connected(s));
    AgreesUndisturbed(s.db, b, m, Connected(s), Connected(s), h);
    if m == p.meetingId {
      JoinerAgrees(b, m, Connected(s), h, b.rows[p.id]);
    } else {
      assert SameIn(b, b, m, Connected(s) + {p.id});
      AgreesUndisturbed(b, b, m, Connected(s), Connected(s) + {p.id}, h);
    }
  }

  /** What an earlier listener has heard once the newcomer is announced. */
  lemma EarlierListenerHears(s: State, c: Connection, p: Participant, m: MeetingId, d: Connection)
    requires Invariant(s) && c == Connection(s.next, p.id, p.meetingId) && d in s.Room(m)
    ensures var t := ToRoom(Admitted(s, c, p), p.meetingId, PeerJoined(Serialize(p)), Some(c.id));
            && d.id in s.wires && d.id in t.wires
            && Log(t.wires[d.id]) == if m == p.meetingId then Hear(Log(s.wires[d.id]), PeerJoined(Serialize(p)))
                                     else Log(s.wires[d.id])
  {
    hide LifecycleProofs.Invariant;
    hide BoundOk;
    hide ActiveRoster;
    assert Added(s.rooms, c)[p.meetingId] == s.Room(p.meetingId) + [c];
  }

  lemma ConnectAgrees(s: State, number: MeetingId, session: RowId)
    requires Invariant(s) && AllAgree(s)
    ensures AllAgree(ConnectSocket(s, number, session))
  {
    hide LifecycleProofs.Invariant;
    hide Agrees;
    hide ActiveRoster;
    hide Log;
    hide Invariant;
    InvariantFacts(s);
    var a := Authenticate(s.db, number, session);
    if a.Ok? && RoomHasSpace(s.db, a.value.meetingId) {
      var p := a.value;
      var c := Connection(s.next, p.id, p.meetingId);
      var t := ConnectSocket(s, number, session);
      assert t == ToRoom(Admitted(s, c, p), p.meetingId, PeerJoined(Serialize(p)), Some(c.id));
      NextIsUnused(s);
      ConnectedGrows(s, c, p);
      forall m, d | d in RoomOf(t.rooms, m)
        ensures d.id in t.wires && Agrees(t.db, m, Connected(t), Log(t.wires[d.id])) {
        if d == c && m == p.meetingId {
          NewcomerAgrees(s, c, p, m);
        } else {
          assert d in s.Room(m);
          EarlierListenerHears(s, c, p, m, d);
          BindingGoesUnheard(s, c, p, m, Log(s.wires[d.id]));
        }
      }
    }
  }

  lemma ConnectedGrows(s: State, c: Connection, p: Participant)
    requires c.id !in s.sockets && c.participantId == p.id
    ensures Connected(Admitted(s, c, p)) == Connected(s) + {p.id}
  {
    hide ActiveRoster;
    var t := Admitted(s, c, p);
    ConnectedWith(s.sockets, c);
  }

  lemma ConnectedWith(sockets: map<ConnId, Connection>, c: Connection)
    requires c.id !in sockets
    ensures Owners(sockets[c.id := c]) == Owners(sockets) + {c.participantId}
  {
    var grown := sockets[c.id := c];
    forall r | r in Owners(sockets) ensures r in Owners(grown) {
      var d :| d in sockets && sockets[d].participantId == r;
      assert grown[d].participantId == r;
    }
    assert grown[c.id].participantId == c.participantId;
  }

  // --- REST --------------------------------------------------------------------------------------

  /** The REST calls allowed here touch no row but to open a new one. */
  lemma RestOpensAtMostOneRow(s: State, step: Step)
    requires ThroughTheSocket(step) && !step.Connect? && !step.Receive? && !step.Teardown?
    ensures var t := Apply(s, step);
            && t.wires == s.wires && t.rooms == s.rooms && t.sockets == s.sockets
            && (t.db.rows == s.db.rows || (s.next in t.db.rows && t.db.rows == s.db.rows[s.next := t.db.rows[s.next]]))
  {
  }

  lemma RestAgrees(s: State, step: Step)
    requires Invariant(s) && AllAgree(s)
    requires ThroughTheSocket(step) && !step.Connect? && !step.Receive? && !step.Teardown?
    ensures AllAgree(Apply(s, step))
  {
    hide LifecycleProofs.Invariant;
    hide RoomsOk;
    hide BoundOk;
    hide Agrees;
    hide Apply;
    hide SameIn;
    RestOpensAtMostOneRow(s, step);
    var t := Apply(s, step);
    assert Connected(t) == Connected(s);
    assert s.next !in s.db.rows && s.next !in Connected(s);
    forall m, c | c in RoomOf(t.rooms, m) ensures c.id in t.wires && Agrees(t.db, m, Connected(t), Log(t.wires[c.id])) {
      OpenedElsewhere(s.db, t.db, s.next, m, Connected(s));
      AgreesUndisturbed(s.db, t.db, m, Connected(s), Connected(s), Log(s.wires[c.id]));
    }
  }

  lemma OpenedElsewhere(a: Db, b: Db, id: RowId, m: MeetingId, connected: set<RowId>)
    requires id !in a.rows && id !in connected
    requires b.rows == a.rows || (id in b.rows && b.rows == a.rows[id := b.rows[id]])
    ensures SameIn(a, b, m, connected)
  {
  }

  lemma FrameAgrees(s: State, c: Connection, frame: ClientFrame)
    requires Ready(s) && SocketsOk(s) && c.id in s.sockets && s.sockets[c.id] == c
    requires forall m :: m in s.db.meetings ==> s.db.meetings[m].id == m
    ensures AllAgree(Handle(s, c, frame))
  {
    hide Ready;
    hide AllAgree;
    hide RoomsOk;
    hide SocketsOk;
    hide HandleStateUpdate;
    hide HandleHostMute;
    hide HandleHostMuteAll;
    hide HandleHostRemove;
    hide HandleHostEnd;
    ReadyFacts(s);
    match frame {
      case Ping => SilentDelivery(s, {c.id}, Pong);
      case Signal(kind, to, payload) =>
        SilentDelivery(s, {c.id}, Error(BadFrame));
        SilentDelivery(s, {c.id}, Error(PeerNotInRoom));
        if to.Some? {
          SilentDelivery(s, Target(s.Room(c.meetingId), to.value), Relayed(kind, c.participantId, payload));
        }
      case StateUpdate(changes) => StateUpdateAgrees(s, c, changes);
      case ChatSend(body) =>
        SilentDelivery(s, Recipients(s.Room(c.meetingId), None), ChatMessage(c.participantId, body));
      case HostMuteFrame(target) => HostMuteAgrees(s, c, target);
      case HostMuteAllFrame => HostMuteAllAgrees(s, c);
      case HostRemoveFrame(target) => HostRemoveAgrees(s, c, target);
      case HostEndFrame => HostEndAgrees(s, c);
      case Unrecognized => SilentDelivery(s, {c.id}, Error(UnknownFrame));
    }
  }

  lemma ApplyAgrees(s: State, step: Step)
    requires Invariant(s) && AllAgree(s) && ThroughTheSocket(step)
    ensures AllAgree(Apply(s, step))
  {
    hide Invariant;
    hide AllAgree;
    hide Handle;
    hide TeardownSocket;
    hide ConnectSocket;
    hide RoomsOk;
    hide SocketsOk;
    InvariantFacts(s);
    match step {
      case Connect(number, session) => ConnectAgrees(s, number, session);
      case Receive(c, frame) =>
        if c in s.running && c in s.sockets { FrameAgrees(s, s.sockets[c], frame); }
      case Teardown(c) => if c in s.running && c in s.sockets { TeardownAgrees(s, s.sockets[c]); }
      case _ => RestAgrees(s, step);
    }
  }

  /**
   * In every run whose row closures and flag changes go through the socket, every registered
   * socket that has not been told to leave has been sent the present rows of its meeting.
   */
  lemma {:induction false} EveryLogAgreesWithTheTables(steps: seq<Step>)
    requires forall i :: 0 <= i < |steps| ==> ThroughTheSocket(steps[i])
    ensures AllAgree(Run(steps))
  {
    if steps != [] {
      var n := |steps| - 1;
      EveryLogAgreesWithTheTables(steps[..n]);
      Reachable(steps[..n]);
      ApplyAgrees(Run(steps[..n]), steps[n]);
    }
  }

  // --- What the REST calls may do ------------------------------------------------------------------

  predicate IsRest(step: Step) {
    !step.Connect? && !step.Receive? && !step.Teardown?
  }

  /** No row that some registered socket was told of differs from what it was told. */
  ghost predicate HeardRowsKept(s: State, t: State) {
    forall m, c, r :: c in RoomOf(s.rooms, m) && c.id in s.wires
                      && !Log(s.wires[c.id]).left && r in Log(s.wires[c.id]).roster && r in s.db.rows
                      ==> r in t.db.rows && Serialize(t.db.rows[r]) == Serialize(s.db.rows[r])
  }

  lemma RestTellsNobody(s: State, step: Step)
    requires IsRest(step)
    ensures var t := Apply(s, step); t.rooms == s.rooms && t.wires == s.wires && t.sockets == s.sockets
  {
  }

  lemma KeptRowsStillAgree(a: Db, b: Db, m: MeetingId, connected: set<RowId>, h: Heard)
    requires Agrees(a, m, connected, h) && LifecycleProofs.HistoryKept(a, b)
    requires forall r :: r in connected ==> r in a.rows
    requires !h.left ==> forall r :: r in h.roster ==> r in b.rows && Serialize(b.rows[r]) == Serialize(a.rows[r])
    ensures Agrees(b, m, connected, h)
  {
    forall r | r in connected && Present(b, m, r) ensures Present(a, m, r) {
      assert LifecycleProofs.RowKept(a.rows[r], b.rows[r]);
    }
  }

  /** The REST calls write to no socket, so agreement outlives one that changes no row anyone was told of. */
  lemma RestKeepsWhatWasHeard(s: State, step: Step)
    requires Invariant(s) && AllAgree(s) && IsRest(step)
    ensures AllAgree(Apply(s, step)) <==> HeardRowsKept(s, Apply(s, step))
  {
    hide Apply;
    hide LifecycleProofs.Invariant;
    hide LifecycleProofs.StatusDiscipline;
    hide LifecycleProofs.BindsNothing;
    hide LifecycleProofs.RowKept;
    hide Log;
    hide Serialize;
    var t := Apply(s, step);
    RestTellsNobody(s, step);
    ApplyKeeps(s, step);
    assert forall r :: r in Connected(s) ==> r in s.db.rows;
    if HeardRowsKept(s, t) {
      forall m, c | c in RoomOf(t.rooms, m)
        ensures c.id in t.wires && Agrees(t.db, m, Connected(t), Log(t.wires[c.id])) {
        KeptRowsStillAgree(s.db, t.db, m, Connected(s), Log(s.wires[c.id]));
      }
    }
  }

  /** Some registered socket, not told to leave, has been told of the row. */
  ghost predicate HeardOf(s: State, r: RowId) {
    exists m, c :: c in RoomOf(s.rooms, m) && c.id in s.wires
                   && !Log(s.wires[c.id]).left && r in Log(s.wires[c.id]).roster
  }

  /** What is heard of is present. */
  lemma HeardIsPresent(s: State, r: RowId)
    requires AllAgree(s) && HeardOf(s, r)
    ensures r in s.db.rows && s.db.rows[r].leftAt.None?
  {
    hide Log;
  }

  /** The host may end the meeting, remove the row; the row's own user or the host may change its flags. */
  predicate MayEndByRest(db: Db, m: MeetingId, user: UserId) {
    m in db.meetings && db.meetings[m].hostId == user && db.meetings[m].status == Live
  }

  predicate MayRemove(db: Db, r: RowId, actor: UserId) {
    && r in db.rows && db.rows[r].meetingId in db.meetings
    && db.meetings[db.rows[r].meetingId].hostId == actor && db.rows[r].userId != actor
  }

  predicate MayPatch(db: Db, r: RowId, actor: UserId) {
    && r in db.rows && db.rows[r].meetingId in db.meetings
    && (db.rows[r].userId == actor || db.meetings[db.rows[r].meetingId].hostId == actor)
  }

  /** The call is obeyed, and what it changes is something a registered socket has been told. */
  ghost predicate Unannounced(s: State, step: Step) {
    match step
    case EndMeeting(m, user) => MayEndByRest(s.db, m, user) && exists r :: HeardOf(s, r) && r in OpenRows(s.db.rows, m)
    case LeaveMeeting(r) => HeardOf(s, r)
    case RemoveParticipant(r, actor) => MayRemove(s.db, r, actor) && HeardOf(s, r)
    case PatchParticipant(r, actor, c) =>
      MayPatch(s.db, r, actor) && HeardOf(s, r) && Patched(s.db.rows[r].flags, c) != s.db.rows[r].flags
    case _ => false
  }

  /** Nobody was told of any of the rows that differ. */
  lemma OneRowDiffers(s: State, t: State, r: RowId)
    requires AllAgree(s) && r in s.db.rows && r in t.db.rows && t.db.rows == s.db.rows[r := t.db.rows[r]]
    ensures HeardRowsKept(s, t) <==> !(HeardOf(s, r) && Serialize(t.db.rows[r]) != Serialize(s.db.rows[r]))
  {
    hide Log;
    hide AllAgree;
  }

  lemma RowCallsAgreeIff(s: State, step: Step)
    requires step.LeaveMeeting? || step.RemoveParticipant? || step.PatchParticipant?
    requires AllAgree(s) && forall r :: r in s.db.rows ==> s.db.rows[r].id == r
    ensures HeardRowsKept(s, Apply(s, step)) <==> !Unannounced(s, step)
  {
    hide AllAgree;
    hide HeardOf;
    hide HeardRowsKept;
    var t := Apply(s, step);
    if HeardOf(s, step.r) { HeardIsPresent(s, step.r); }
    if step.r in s.db.rows {
      OneRowDiffers(s, t, step.r);
    } else {
      NoRowDiffers(s, t);
    }
  }

  lemma NoRowDiffers(s: State, t: State)
    requires t.db.rows == s.db.rows
    ensures HeardRowsKept(s, t)
  {
    hide Log;
  }

  lemma EndAgreesIff(s: State, m: MeetingId, user: UserId)
    requires AllAgree(s) && forall k :: k in s.db.meetings ==> s.db.meetings[k].id == k
    ensures HeardRowsKept(s, Apply(s, EndMeeting(m, user))) <==> !Unannounced(s, EndMeeting(m, user))
  {
    hide AllAgree;
    hide Log;
    var t := Apply(s, EndMeeting(m, user));
    if !MayEndByRest(s.db, m, user) {
    } else {
      assert t.db.rows == Evicted(s.db.rows, OpenRows(s.db.rows, m), s.clock);
      if r :| HeardOf(s, r) && r in OpenRows(s.db.rows, m) {
        assert Serialize(t.db.rows[r]) != Serialize(s.db.rows[r]);
      }
    }
  }

  /**
   * A REST call ends agreement between the logs and the tables exactly when it is obeyed and closes, or
   * changes the flags of, a row that some registered socket has been told of.
   */
  lemma RestCallAgreesIff(s: State, step: Step)
    requires Invariant(s) && AllAgree(s) && IsRest(step)
    ensures AllAgree(Apply(s, step)) <==> !Unannounced(s, step)
  {
    hide Invariant;
    hide AllAgree;
    hide Apply;
    hide HeardRowsKept;
    hide HeardOf;
    InvariantFacts(s);
    RestKeepsWhatWasHeard(s, step);
    if ThroughTheSocket(step) {
      RestAgrees(s, step);
    } else if step.EndMeeting? {
      EndAgreesIff(s, step.m, step.user);
    } else {
      RowCallsAgreeIff(s, step);
    }
  }
}
