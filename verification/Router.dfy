// The signaling route as it runs: one object holding the database session and the room
// registry. Every handler leaves exactly the state its function in `Server` prescribes.

module Router {
  import opened Model
  import opened Lifecycle
  import LifecycleProofs
  import opened Protocol
  import opened Registry
  import Server
  import ServerProofs
  import SignalingService

  class SignalingRouter {
    const session: Session
    const registry: RoomRegistry
    var sockets: map<ConnId, Connection>
    var running: set<ConnId>
    var next: nat
    var clock: int

    constructor ()
      ensures View() == Server.INIT && Valid()
      ensures fresh(session) && fresh(registry)
    {
      session := new Session();
      registry := new RoomRegistry();
      sockets, running, next, clock := map[], {}, 0, 0;
      new;
      ServerProofs.Reachable([]);
    }

    function View(): Server.State
      reads this, session, registry
    {
      Server.State(session.View(), registry.rooms, registry.wires, sockets, running, next, clock)
    }

    ghost predicate Valid()
      reads this, session, registry
    {
      ServerProofs.Invariant(View())
    }

    /** What the registry needs in order to reach a room. */
    ghost predicate Reachable(m: MeetingId)
      reads registry
    {
      && Ids(RoomOf(registry.rooms, m)) <= registry.wires.Keys
      && Chronological(RoomOf(registry.rooms, m))
    }

    lemma ValidFacts(m: MeetingId)
      requires Valid()
      ensures Reachable(m)
      ensures forall r :: r in session.rows ==> session.rows[r].id == r
      ensures forall k :: k in session.meetings ==> session.meetings[k].id == k
      ensures sockets.Keys == registry.wires.Keys && running <= sockets.Keys
      ensures forall c :: c in sockets ==> sockets[c].id == c
    {
    }

    // --- Connect ---------------------------------------------------------------------

    /** Authenticate, register, check for room, bind, then snapshot first and news second. */
    method Connect(number: MeetingId, sessionId: RowId) returns (admitted: bool)
      requires Valid()
      modifies this, session, registry
      ensures Valid() && View() == Server.Apply(old(View()), Server.Connect(number, sessionId))
      ensures admitted <==> old(next) in sockets
    {
      hide ServerProofs.Invariant;
      hide LifecycleProofs.Invariant;
      hide Server.Admitted;
      ghost var s := View();
      ServerProofs.ConnectKeeps(s, number, sessionId);
      ValidFacts(number);
      NextIsFree();
      var auth := Authenticate(session.View(), number, sessionId);
      if auth.Err? {
        return false;
      }
      var p := auth.value;
      var c := registry.Add(next, p.meetingId, p.id);
      next := next + 1;
      if !RoomHasSpace(session.View(), p.meetingId) {
        RefuseSocket(s, c);
        return false;
      }
      Admit(s, c, p);
      return true;
    }

    /** A refused socket leaves no trace in the registry, and its log is not kept. */
    method RefuseSocket(ghost s: Server.State, c: Connection)
      requires View() == s.(rooms := Added(s.rooms, c), wires := s.wires[c.id := []], next := s.next + 1)
      requires c.id !in s.wires && (c.meetingId in s.rooms ==> s.rooms[c.meetingId] != [])
      requires forall d :: d in RoomOf(s.rooms, c.meetingId) ==> d.id != c.id
      modifies registry
      ensures View() == s.(next := s.next + 1)
    {
      registry.Remove(c);
      registry.wires := registry.wires - {c.id};
      AddThenRemove(s.rooms, c);
    }

    method Admit(ghost s: Server.State, c: Connection, p: Participant)
      requires View() == s.(rooms := Added(s.rooms, c), wires := s.wires[c.id := []], next := s.next + 1)
      requires p.id in session.rows && session.rows[p.id] == p && c.id !in s.wires && c.id == s.next
      requires Ids(RoomOf(s.rooms, c.meetingId)) <= s.wires.Keys && Chronological(RoomOf(s.rooms, c.meetingId))
      requires forall d :: d in RoomOf(s.rooms, c.meetingId) ==> d.id < c.id
      modifies session, registry`wires, this`sockets, this`running
      ensures View() == Server.ToRoom(Server.Admitted(s, c, p), c.meetingId, PeerJoined(Serialize(p)), Some(c.id))
      ensures c.id in sockets
    {
      SignalingService.BindConnection(session, p.id, c.id);
      sockets, running := sockets[c.id := c], running + {c.id};
      ghost var snapshot := RoomState(Server.ActiveRoster(session.rows, c.meetingId), Serialize(p));
      registry.Send(c.id, RoomState(Server.ActiveRoster(session.rows, c.meetingId), Serialize(session.rows[p.id])));
      assert [] + [snapshot] == [snapshot];
      assert registry.wires == s.wires[c.id := [snapshot]];
      JoinedRoomIsReachable(s.rooms, s.wires, c);
      registry.Broadcast(c.meetingId, PeerJoined(Serialize(session.rows[p.id])), Some(c.id));
    }

    lemma NextIsFree()
      requires Valid()
      ensures next !in sockets && next !in registry.wires
      ensures forall m, d :: d in RoomOf(registry.rooms, m) ==> d.id < next
      ensures forall m :: m in registry.rooms ==> registry.rooms[m] != []
    {
    }

    // --- Frame handlers ----------------------------------------------------------------

    method HandleSignal(c: Connection, kind: SignalKind, to: Option<RowId>, payload: nat)
      requires Reachable(c.meetingId) && c.id in registry.wires
      modifies registry`wires
      ensures View() == Server.HandleSignal(old(View()), c, kind, to, payload)
    {
      if to.None? {
        registry.Send(c.id, Error(BadFrame));
        return;
      }
      var present := registry.IsInRoom(c.meetingId, to.value);
      if !present {
        registry.Send(c.id, Error(PeerNotInRoom));
        return;
      }
      registry.SendToParticipant(c.meetingId, to.value, Relayed(kind, c.participantId, payload));
    }

    method BroadcastPeerUpdated(c: Connection, r: RowId)
      requires Reachable(c.meetingId) && r in session.rows
      modifies registry`wires
      ensures View() == Server.Announced(old(View()), c.meetingId, r)
    {
      registry.Broadcast(c.meetingId, PeerUpdated(r, session.rows[r].flags), None);
    }

    method HandleStateUpdate(c: Connection, changes: Changes)
      requires Reachable(c.meetingId) && c.id in registry.wires
      requires forall r :: r in session.rows ==> session.rows[r].id == r
      modifies session, registry`wires
      ensures View() == Server.HandleStateUpdate(old(View()), c, changes)
    {
      var error := SignalingService.ApplyStateUpdate(session, c.participantId, changes);
      if error.Some? {
        registry.Send(c.id, Error(error.value));
        return;
      }
      BroadcastPeerUpdated(c, c.participantId);
    }

    method HandleHostMute(c: Connection, target: Option<RowId>)
      requires Reachable(c.meetingId) && c.id in registry.wires
      requires forall r :: r in session.rows ==> session.rows[r].id == r
      modifies session, registry`wires
      ensures View() == Server.HandleHostMute(old(View()), c, target)
    {
      if target.None? {
        registry.Send(c.id, Error(BadFrame));
        return;
      }
      if c.participantId !in session.rows {
        registry.Send(c.id, Error(InvalidSession));
        return;
      }
      var error := SignalingService.HostMute(session, c.participantId, target.value);
      if error.Some? {
        registry.Send(c.id, Error(error.value));
        return;
      }
      registry.SendToParticipant(c.meetingId, target.value, HostMutedYou(c.participantId));
      BroadcastPeerUpdated(c, target.value);
    }

    method HandleHostMuteAll(c: Connection)
      requires Reachable(c.meetingId) && c.id in registry.wires
      requires forall r :: r in session.rows ==> session.rows[r].id == r
      modifies session, registry`wires
      ensures View() == Server.HandleHostMuteAll(old(View()), c)
    {
      if c.participantId !in session.rows {
        registry.Send(c.id, Error(InvalidSession));
        return;
      }
      var error, muted := SignalingService.HostMuteAll(session, c.participantId);
      if error.Some? {
        registry.Send(c.id, Error(error.value));
        return;
      }
      var updated := Ascending(muted);
      assert forall i :: 0 <= i < |updated| ==> updated[i] in muted;
      NotifyMuted(c, updated);
    }

    /** The target is told before the room, one row at a time. */
    method NotifyMuted(c: Connection, updated: seq<RowId>)
      requires Reachable(c.meetingId)
      requires forall i :: 0 <= i < |updated| ==> updated[i] in session.rows
      modifies registry`wires
      ensures View() == Server.MuteNotices(old(View()), c, updated)
    {
      var i := 0;
      while i < |updated|
        invariant 0 <= i <= |updated| && Reachable(c.meetingId)
        invariant View() == old(View()).(wires := registry.wires)
        invariant Server.MuteNotices(View(), c, updated[i..]) == Server.MuteNotices(old(View()), c, updated)
      {
        assert updated[i..][0] == updated[i] && updated[i..][1..] == updated[i + 1..];
        registry.SendToParticipant(c.meetingId, updated[i], HostMutedYou(c.participantId));
        BroadcastPeerUpdated(c, updated[i]);
        i := i + 1;
      }
    }

    method CloseParticipant(m: MeetingId, p: RowId)
      modifies registry`rooms
      ensures registry.rooms == Server.ClosedParticipant(old(registry.rooms), m, p)
    {
      var target := registry.FindSocket(m, p);
      if target.Some? {
        registry.Remove(target.value);
      }
    }

    method HandleHostRemove(c: Connection, target: Option<RowId>)
      requires Reachable(c.meetingId) && c.id in registry.wires
      requires forall r :: r in session.rows ==> session.rows[r].id == r
      modifies session, registry
      ensures View() == Server.HandleHostRemove(old(View()), c, target)
    {
      if target.None? {
        registry.Send(c.id, Error(BadFrame));
        return;
      }
      if c.participantId !in session.rows {
        registry.Send(c.id, Error(InvalidSession));
        return;
      }
      var error := SignalingService.HostRemove(session, c.participantId, target.value, clock);
      if error.Some? {
        registry.Send(c.id, Error(error.value));
        return;
      }
      registry.SendToParticipant(c.meetingId, target.value, HostRemovedYou(c.participantId));
      registry.Broadcast(c.meetingId, PeerLeft(target.value), None);
      CloseParticipant(c.meetingId, target.value);
    }

    method HandleHostEnd(c: Connection)
      requires Reachable(c.meetingId) && c.id in registry.wires
      requires forall m :: m in session.meetings ==> session.meetings[m].id == m
      modifies session, registry
      ensures View() == Server.HandleHostEnd(old(View()), c)
    {
      if c.participantId !in session.rows {
        registry.Send(c.id, Error(InvalidSession));
        return;
      }
      var error := SignalingService.HostEndMeeting(session, c.participantId, clock);
      if error.Some? {
        registry.Send(c.id, Error(error.value));
        return;
      }
      registry.Broadcast(c.meetingId, MeetingEnded(c.participantId), None);
      CloseAllBut(RoomOf(registry.rooms, c.meetingId), c.id);
    }

    method CloseAllBut(peers: seq<Connection>, keep: ConnId)
      modifies registry`rooms
      ensures registry.rooms == Server.RemovedAllBut(old(registry.rooms), peers, keep)
    {
      var i := 0;
      while i < |peers|
        invariant 0 <= i <= |peers|
        invariant Server.RemovedAllBut(registry.rooms, peers[i..], keep)
               == Server.RemovedAllBut(old(registry.rooms), peers, keep)
      {
        assert peers[i..][0] == peers[i] && peers[i..][1..] == peers[i + 1..];
        if peers[i].id != keep {
          registry.Remove(peers[i]);
        }
        i := i + 1;
      }
    }

    // --- Message loop and teardown -------------------------------------------------------

    /** The dispatch table. */
    method Dispatch(c: Connection, frame: ClientFrame)
      requires Reachable(c.meetingId) && c.id in registry.wires
      requires forall r :: r in session.rows ==> session.rows[r].id == r
      requires forall m :: m in session.meetings ==> session.meetings[m].id == m
      modifies session, registry
      ensures View() == Server.Handle(old(View()), c, frame)
    {
      hide Server.HandleStateUpdate;
      hide Server.HandleHostMute;
      hide Server.HandleHostMuteAll;
      hide Server.HandleHostRemove;
      hide Server.HandleHostEnd;
      hide Server.HandleSignal;
      match frame {
        case Ping => registry.Send(c.id, Pong);
        case Signal(kind, to, payload) => HandleSignal(c, kind, to, payload);
        case StateUpdate(changes) => HandleStateUpdate(c, changes);
        case ChatSend(body) => registry.Broadcast(c.meetingId, ChatMessage(c.participantId, body), None);
        case HostMuteFrame(target) => HandleHostMute(c, target);
        case HostMuteAllFrame => HandleHostMuteAll(c);
        case HostRemoveFrame(target) => HandleHostRemove(c, target);
        case HostEndFrame => HandleHostEnd(c);
        case Unrecognized => registry.Send(c.id, Error(UnknownFrame));
      }
    }

    /** One turn of the message loop. */
    method Receive(id: ConnId, frame: ClientFrame)
      requires Valid() && id in running
      modifies session, registry
      ensures Valid() && View() == Server.Apply(old(View()), Server.Receive(id, frame))
    {
      hide ServerProofs.Invariant;
      hide LifecycleProofs.Invariant;
      hide Server.Handle;
      ValidFacts(0);
      var c := sockets[id];
      ValidFacts(c.meetingId);
      ServerProofs.HandleKeeps(View(), c, frame);
      Dispatch(c, frame);
    }

    /** Leave the registry, release the row, and tell the room only of a real departure. */
    method Teardown(id: ConnId)
      requires Valid() && id in running
      modifies this`running, session, registry
      ensures Valid() && View() == Server.Apply(old(View()), Server.Teardown(id))
    {
      hide ServerProofs.Invariant;
      hide LifecycleProofs.Invariant;
      ValidFacts(0);
      var c := sockets[id];
      ValidFacts(c.meetingId);
      ServerProofs.TeardownKeeps(View(), c);
      registry.Remove(c);
      running := running - {c.id};
      var closed := SignalingService.ReleaseConnection(session, c.participantId, c.id, clock);
      if !closed {
        return;
      }
      RoomStaysReachable(old(registry.rooms), registry.wires, c);
      registry.Broadcast(c.meetingId, PeerLeft(c.participantId), None);
    }

    static lemma RoomStaysReachable(rooms: Rooms, wires: Wires, c: Connection)
      requires Ids(RoomOf(rooms, c.meetingId)) <= wires.Keys && Chronological(RoomOf(rooms, c.meetingId))
      ensures Ids(RoomOf(Removed(rooms, c), c.meetingId)) <= wires.Keys
      ensures Chronological(RoomOf(Removed(rooms, c), c.meetingId))
    {
      WithoutKeepsOrder(RoomOf(rooms, c.meetingId), c.id);
      forall d | d in RoomOf(Removed(rooms, c), c.meetingId) ensures d.id in wires {
        assert d in RoomOf(rooms, c.meetingId) && d.id in Ids(RoomOf(rooms, c.meetingId));
      }
    }

    static lemma JoinedRoomIsReachable(rooms: Rooms, wires: Wires, c: Connection)
      requires Ids(RoomOf(rooms, c.meetingId)) <= wires.Keys && Chronological(RoomOf(rooms, c.meetingId))
      requires forall d :: d in RoomOf(rooms, c.meetingId) ==> d.id < c.id
      ensures Ids(RoomOf(Added(rooms, c), c.meetingId)) <= wires.Keys + {c.id}
      ensures Chronological(RoomOf(Added(rooms, c), c.meetingId))
    {
      var room := RoomOf(rooms, c.meetingId);
      forall d | d in room + [c] ensures d.id in wires.Keys + {c.id} {
        if d in room { assert d.id in Ids(room); }
      }
    }
  }
}
