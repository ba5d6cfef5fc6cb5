// A frame reaches sockets of one meeting only: the one its sender belongs to.

module Isolation {
  import opened Model
  import opened Lifecycle
  import LifecycleProofs
  import opened Protocol
  import opened Registry
  import opened Server
  import opened ServerProofs
  import opened Guarantees

  /**
   * What a frame sent outside the connect step may say: no snapshot, no arrival, a signal only
   * from a row that owns a socket, and a departure only of a row that has closed.
   */
  predicate Plain(rows: Rows, owners: set<RowId>, f: ServerFrame) {
    match f
    case RoomState(_, _) => false
    case PeerJoined(_) => false
    case PeerLeft(r) => r in rows && rows[r].leftAt.Some?
    case Relayed(_, from, _) => from in owners
    case _ => true
  }

  /** Logs only grow, only those of sockets of meeting `m` do, and only by plain frames. */
  ghost predicate Confined(sockets: Sockets, before: Wires, after: Wires, m: MeetingId, rows: Rows) {
    forall d :: d in before ==>
      && d in after
      && before[d] <= after[d]
      && (after[d] != before[d] ==> d in sockets && sockets[d].meetingId == m)
      && (forall i :: |before[d]| <= i < |after[d]| ==> Plain(rows, Owners(sockets), after[d][i]))
  }

  /** The room of `m` lists sockets of `m`. */
  ghost predicate Listed(sockets: Sockets, room: Room, m: MeetingId) {
    forall c :: c in room ==> c.id in sockets && sockets[c.id].meetingId == m
  }

  lemma ConfinedComposes(sockets: Sockets, a: Wires, b: Wires, c: Wires, m: MeetingId, rows: Rows)
    requires Confined(sockets, a, b, m, rows) && Confined(sockets, b, c, m, rows)
    ensures Confined(sockets, a, c, m, rows)
  {
    hide Plain;
    hide Owners;
    forall d, i | d in a && |a[d]| <= i < |c[d]| ensures Plain(rows, Owners(sockets), c[d][i]) {
      if i < |b[d]| { assert c[d][i] == b[d][i]; }
    }
  }

  lemma ToRoomConfined(s: State, m: MeetingId, f: ServerFrame, exclude: Option<ConnId>)
    requires Listed(s.sockets, s.Room(m), m) && Plain(s.db.rows, Owners(s.sockets), f)
    ensures Confined(s.sockets, s.wires, ToRoom(s, m, f, exclude).wires, m, s.db.rows)
  {
  }

  lemma ToParticipantConfined(s: State, m: MeetingId, p: RowId, f: ServerFrame)
    requires Listed(s.sockets, s.Room(m), m) && Plain(s.db.rows, Owners(s.sockets), f)
    ensures Confined(s.sockets, s.wires, ToParticipant(s, m, p, f).wires, m, s.db.rows)
  {
  }

  lemma ToSocketConfined(s: State, c: Connection, f: ServerFrame)
    requires c.id in s.sockets && s.sockets[c.id] == c && Plain(s.db.rows, Owners(s.sockets), f)
    ensures Confined(s.sockets, s.wires, ToSocket(s, c.id, f).wires, c.meetingId, s.db.rows)
  {
  }

  /** A frame to one participant, then one to the room. */
  lemma TwoFramesConfined(s: State, m: MeetingId, p: RowId, f: ServerFrame, g: ServerFrame)
    requires Listed(s.sockets, s.Room(m), m)
    requires Plain(s.db.rows, Owners(s.sockets), f) && Plain(s.db.rows, Owners(s.sockets), g)
    ensures Confined(s.sockets, s.wires, ToRoom(ToParticipant(s, m, p, f), m, g, None).wires, m, s.db.rows)
  {
    hide Confined;
    hide Listed;
    hide Plain;
    var told := ToParticipant(s, m, p, f);
    ToParticipantConfined(s, m, p, f);
    ToRoomConfined(told, m, g, None);
    ConfinedComposes(s.sockets, s.wires, told.wires, ToRoom(told, m, g, None).wires, m, s.db.rows);
  }

  lemma {:induction false} MuteNoticesConfined(s: State, c: Connection, ids: seq<RowId>)
    requires Listed(s.sockets, s.Room(c.meetingId), c.meetingId)
    requires forall i :: 0 <= i < |ids| ==> ids[i] in s.db.rows
    ensures Confined(s.sockets, s.wires, MuteNotices(s, c, ids).wires, c.meetingId, s.db.rows)
    decreases |ids|
  {
    hide Confined;
    hide Listed;
    if ids == [] {
      NothingIsConfined(s.sockets, s.wires, c.meetingId, s.db.rows);
    } else {
      var next := MuteNotice(s, c, ids[0]);
      TwoFramesConfined(s, c.meetingId, ids[0], HostMutedYou(c.participantId),
          PeerUpdated(ids[0], s.db.rows[ids[0]].flags));
      MuteNoticesConfined(next, c, ids[1..]);
      ConfinedComposes(s.sockets, s.wires, next.wires, MuteNotices(s, c, ids).wires, c.meetingId, s.db.rows);
    }
  }

  lemma NothingIsConfined(sockets: Sockets, wires: Wires, m: MeetingId, rows: Rows)
    ensures Confined(sockets, wires, wires, m, rows)
  {
  }

  // --- Frames, teardowns, connects ---------------------------------------------------------

  ghost predicate Keyed(rows: Rows) {
    forall r :: r in rows ==> rows[r].id == r
  }

  lemma HostMuteConfined(s: State, c: Connection, target: Option<RowId>)
    requires Listed(s.sockets, s.Room(c.meetingId), c.meetingId) && c.id in s.sockets && s.sockets[c.id] == c
    ensures Confined(s.sockets, s.wires, HandleHostMute(s, c, target).wires, c.meetingId,
        HandleHostMute(s, c, target).db.rows)
  {
    hide Confined;
    hide Listed;
    hide Delivered;
    hide Owners;
    if target.None? {
      ToSocketConfined(s, c, Error(BadFrame));
    } else if c.participantId !in s.db.rows {
      ToSocketConfined(s, c, Error(InvalidSession));
    } else {
      match HostMute(s.db, s.db.rows[c.participantId], target.value) {
        case Err(e) => ToSocketConfined(s, c, Error(e));
        case Ok(db) =>
          if target.value in db.rows {
            TwoFramesConfined(s.(db := db), c.meetingId, target.value, HostMutedYou(c.participantId),
                              PeerUpdated(target.value, db.rows[target.value].flags));
          }
      }
    }
  }

  lemma HostRemoveConfined(s: State, c: Connection, target: Option<RowId>)
    requires Listed(s.sockets, s.Room(c.meetingId), c.meetingId) && c.id in s.sockets && s.sockets[c.id] == c
    requires Keyed(s.db.rows)
    ensures Confined(s.sockets, s.wires, HandleHostRemove(s, c, target).wires,
        c.meetingId, HandleHostRemove(s, c, target).db.rows)
  {
    hide Confined;
    hide Listed;
    hide Delivered;
    hide Owners;
    if target.None? {
      ToSocketConfined(s, c, Error(BadFrame));
    } else if c.participantId !in s.db.rows {
      ToSocketConfined(s, c, Error(InvalidSession));
    } else {
      match HostRemove(s.db, s.db.rows[c.participantId], target.value, s.clock) {
        case Err(e) => ToSocketConfined(s, c, Error(e));
        case Ok(db) =>
          TwoFramesConfined(s.(db := db), c.meetingId, target.value,
              HostRemovedYou(c.participantId), PeerLeft(target.value));
      }
    }
  }

  lemma HostEndConfined(s: State, c: Connection)
    requires Listed(s.sockets, s.Room(c.meetingId), c.meetingId) && c.id in s.sockets && s.sockets[c.id] == c
    ensures Confined(s.sockets, s.wires, HandleHostEnd(s, c).wires, c.meetingId, HandleHostEnd(s, c).db.rows)
  {
    hide Confined;
    hide Listed;
    hide Delivered;
    if c.participantId !in s.db.rows {
      ToSocketConfined(s, c, Error(InvalidSession));
    } else {
      match HostEnd(s.db, s.db.rows[c.participantId], s.clock) {
        case Err(e) => ToSocketConfined(s, c, Error(e));
        case Ok(db) => ToRoomConfined(s.(db := db), c.meetingId, MeetingEnded(c.participantId), None);
      }
    }
  }

  lemma HostMuteAllConfined(s: State, c: Connection)
    requires Listed(s.sockets, s.Room(c.meetingId), c.meetingId) && c.id in s.sockets && s.sockets[c.id] == c
    ensures Confined(s.sockets, s.wires, HandleHostMuteAll(s, c).wires, c.meetingId, HandleHostMuteAll(s, c).db.rows)
  {
    hide Confined;
    hide Listed;
    hide Delivered;
    if c.participantId !in s.db.rows {
      ToSocketConfined(s, c, Error(InvalidSession));
    } else {
      var actor := s.db.rows[c.participantId];
      match HostMuteAll(s.db, actor) {
        case Err(e) => ToSocketConfined(s, c, Error(e));
        case Ok(db) =>
          var ids := Ascending(Mutable(s.db, actor));
          assert forall i :: 0 <= i < |ids| ==> ids[i] in Mutable(s.db, actor);
          MuteNoticesConfined(s.(db := db), c, ids);
      }
    }
  }

  lemma OwnerOwns(sockets: Sockets, c: ConnId)
    requires c in sockets
    ensures sockets[c].participantId in Owners(sockets)
  {
  }

  /** Whatever frame a socket sends, its effects stay in the sender's own meeting. */
  lemma FrameConfined(s: State, c: Connection, frame: ClientFrame)
    requires Listed(s.sockets, s.Room(c.meetingId), c.meetingId) && c.id in s.sockets && s.sockets[c.id] == c
    requires Keyed(s.db.rows)
    ensures Confined(s.sockets, s.wires, Handle(s, c, frame).wires, c.meetingId, Handle(s, c, frame).db.rows)
  {
    hide Confined;
    hide Listed;
    hide HandleHostMute;
    hide HandleHostMuteAll;
    hide HandleHostRemove;
    hide HandleHostEnd;
    hide Owners;
    assert c.participantId in Owners(s.sockets) by { OwnerOwns(s.sockets, c.id); }
    hide Delivered;
    match frame {
      case Ping => ToSocketConfined(s, c, Pong);
      case Signal(kind, to, payload) =>
        ToSocketConfined(s, c, Error(BadFrame));
        ToSocketConfined(s, c, Error(PeerNotInRoom));
        if to.Some? { ToParticipantConfined(s, c.meetingId, to.value, Relayed(kind, c.participantId, payload)); }
      case StateUpdate(changes) =>
        match ApplyStateUpdate(s.db, c.participantId, changes) {
          case Err(e) => ToSocketConfined(s, c, Error(e));
          case Ok(db) =>
            if c.participantId in db.rows {
              ToRoomConfined(s.(db := db), c.meetingId,
                  PeerUpdated(c.participantId, db.rows[c.participantId].flags), None);
            }
        }
      case ChatSend(body) => ToRoomConfined(s, c.meetingId, ChatMessage(c.participantId, body), None);
      case HostMuteFrame(target) => HostMuteConfined(s, c, target);
      case HostMuteAllFrame => HostMuteAllConfined(s, c);
      case HostRemoveFrame(target) => HostRemoveConfined(s, c, target);
      case HostEndFrame => HostEndConfined(s, c);
      case Unrecognized => ToSocketConfined(s, c, Error(UnknownFrame));
    }
  }

  lemma TeardownConfined(s: State, c: Connection)
    requires Listed(s.sockets, RoomOf(Removed(s.rooms, c), c.meetingId), c.meetingId)
    requires Keyed(s.db.rows)
    ensures Confined(s.sockets, s.wires, TeardownSocket(s, c).wires, c.meetingId, TeardownSocket(s, c).db.rows)
  {
    hide Confined;
    hide Listed;
    hide Delivered;
    NothingIsConfined(s.sockets, s.wires, c.meetingId, s.db.rows);
    match Release(s.db, c.participantId, c.id, s.clock) {
      case None =>
      case Some(db) =>
        var gone := s.(db := db, rooms := Removed(s.rooms, c), running := s.running - {c.id});
        ToRoomConfined(gone, c.meetingId, PeerLeft(c.participantId), None);
    }
  }

  /** The meeting a socket step acts in. */
  function ActsIn(s: State, step: Step): Option<MeetingId> {
    match step
    case Receive(c, _) => if c in s.sockets then Some(s.sockets[c].meetingId) else None
    case Teardown(c) => if c in s.sockets then Some(s.sockets[c].meetingId) else None
    case Connect(number, _) => Some(number)
    case _ => None
  }

  /** A connect tells the sockets already in the room one thing, and nobody else anything. */
  lemma ConnectAppends(s: State, number: MeetingId, session: RowId)
    requires Invariant(s)
    ensures var t := ConnectSocket(s, number, session);
            forall d :: d in s.wires ==>
              && d in t.wires
              && t.wires[d] == if s.next in t.sockets && d in Ids(s.Room(number))
                               then s.wires[d] + [PeerJoined(Serialize(s.db.rows[session]))] else s.wires[d]
  {
    hide LifecycleProofs.Invariant;
    hide BoundOk;
    hide ActiveRoster;

    var a := Authenticate(s.db, number, session);
    if a.Ok? && RoomHasSpace(s.db, a.value.meetingId) {
      var c := Connection(s.next, a.value.id, a.value.meetingId);
      assert RoomOf(Added(s.rooms, c), number) == s.Room(number) + [c];
      forall d | d in s.Room(number) ensures d.id != c.id {
        assert d.id in s.sockets;
      }
      assert Recipients(s.Room(number) + [c], Some(c.id)) == Ids(s.Room(number));
    }
  }

  /** Outside connect, what a step sends is plain and stays in one meeting. */
  lemma StepConfined(s: State, step: Step)
    requires Core(s) && !step.Connect?
    ensures var t := Apply(s, step);
            exists m: MeetingId :: Confined(s.sockets, s.wires, t.wires, m, t.db.rows)
                        && (t.wires != s.wires ==> ActsIn(s, step) == Some(m))
  {
    hide Confined;
    hide Handle;
    hide TeardownSocket;
    hide LifecycleProofs.Invariant;
    CoreFacts(s);
    var t := Apply(s, step);
    NothingIsConfined(s.sockets, s.wires, 0, t.db.rows);
    match step {
      case Receive(c, frame) =>
        if c in s.running {
          FrameConfined(s, s.sockets[c], frame);
        }
      case Teardown(c) =>
        if c in s.running {
          TeardownConfined(s, s.sockets[c]);
        }
      case _ =>
    }
  }

  /**
   * Room isolation over every run: a step writes only to sockets of the meeting it acts in,
   * writes by appending, and the REST calls write to no socket at all.
   */
  lemma EveryStepStaysInItsRoom(steps: seq<Step>, step: Step)
    ensures var s := Run(steps); var t := Run(steps + [step]);
            forall d :: d in s.wires ==>
              && d in s.sockets && d in t.wires && s.wires[d] <= t.wires[d]
              && (t.wires[d] != s.wires[d] ==> ActsIn(s, step) == Some(s.sockets[d].meetingId))
  {
    hide Apply;
    hide LifecycleProofs.Invariant;
    hide BoundOk;
    hide Plain;
    var s := Run(steps);
    Reachable(steps);
    if step.Connect? {
      assert Apply(s, step) == ConnectSocket(s, step.number, step.session) by { ConnectApplied(s, step); }
      ConnectAppends(s, step.number, step.session);
    } else {
      StepConfined(s, step);
    }
  }

  lemma ConnectApplied(s: State, step: Step)
    requires step.Connect?
    ensures Apply(s, step) == ConnectSocket(s, step.number, step.session)
  {
  }

  /** Every registered socket sits in the room of its own row's meeting; no room is empty. */
  lemma RegistryMatchesTheTables(steps: seq<Step>, m: MeetingId)
    requires m in Run(steps).rooms
    ensures var s := Run(steps);
            && s.rooms[m] != []
            && Chronological(s.rooms[m])
            && forall c :: c in s.rooms[m] ==>
                 && c.meetingId == m && c.id in s.running
                 && c.participantId in s.db.rows && s.db.rows[c.participantId].meetingId == m
  {
    hide LifecycleProofs.Invariant;
    hide BoundOk;
    Reachable(steps);
  }

  /** A relay for a participant goes to the socket its row names, stale sockets or not. */
  lemma RelayReachesTheBoundSocket(steps: seq<Step>, r: RowId)
    requires r in Run(steps).db.rows && Run(steps).db.rows[r].connectionId.Some?
    ensures var s := Run(steps);
            Target(s.Room(s.db.rows[r].meetingId), r) == {s.db.rows[r].connectionId.value}
  {
    hide LifecycleProofs.Invariant;
    Reachable(steps);
    var s := Run(steps);
    var room := s.Room(s.db.rows[r].meetingId);
    var c := s.sockets[s.db.rows[r].connectionId.value];
    FindIsYoungest(room, r, c);
    assert Find(room, r).value in room;
  }
}
