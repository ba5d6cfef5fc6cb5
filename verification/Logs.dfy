// The registry and the logs read by receiver: what each step adds to the log of each socket, and which
// sockets it registers and unregisters.

module Logs {
  import opened Model
  import opened Lifecycle
  import LifecycleProofs
  import opened Protocol
  import opened Registry
  import opened Server
  import opened ServerProofs
  import opened Guarantees
  import Isolation
  import opened Columns

  // --- Registered sockets --------------------------------------------------------------------------------

  predicate Holds(rooms: Rooms, m: MeetingId, x: Connection) {
    x in RoomOf(rooms, m)
  }

  predicate Admits(s: State, step: Step) {
    step.Connect? && step.session in s.db.rows && Binds(s, step, step.session)
  }

  /** A removal the owner may make: of another row of the meeting. */
  predicate Removes(s: State, step: Step) {
    && ChairSends(s, step) && step.frame.HostRemoveFrame? && Named(s, step.c, step.frame.target)
    && step.frame.target.value != s.sockets[step.c].participantId
  }

  predicate Unregisters(s: State, step: Step, x: Connection) {
    match step
    case Teardown(c) => c in s.running && x.id == c
    case Receive(c, frame) =>
      && ChairSends(s, step) && x.meetingId == s.sockets[c].meetingId
      && (|| (frame.HostEndFrame? && x.id != c)
          || (Removes(s, step) && Target(s.Room(x.meetingId), frame.target.value) == {x.id}))
    case _ => false
  }

  /** The sockets ever admitted, those running, and those registered after a step. */
  ghost predicate RegistryWritten(s: State, step: Step, t: State) {
    && t.sockets == (if Admits(s, step) then s.sockets[s.next := Connection(s.next, step.session, step.number)]
                     else s.sockets)
    && t.running == (if Admits(s, step) then s.running + {s.next}
                     else if step.Teardown? then s.running - {step.c} else s.running)
    && forall m, x :: Holds(t.rooms, m, x) <==>
         (Holds(s.rooms, m, x) && !Unregisters(s, step, x))
         || (Admits(s, step) && m == step.number && x == Connection(s.next, step.session, m))
  }

  lemma RestLeavesRegistryAlone(s: State, step: Step)
    requires IsRest(step)
    ensures RegistryWritten(s, step, Apply(s, step))
  {
    hide Apply;
    RestLeavesRegistry(s, step);
    SameRegistry(s, step, Apply(s, step));
  }

  lemma ConnectIs(s: State, step: Step)
    requires Invariant(s) && step.Connect?
    ensures Authenticate(s.db, step.number, step.session).Ok? <==> Admits(s, step)
    ensures Admits(s, step) ==>
              Authenticate(s.db, step.number, step.session) == Ok(s.db.rows[step.session])
              && RoomHasSpace(s.db, step.number)
              && s.db.rows[step.session].id == step.session && s.db.rows[step.session].meetingId == step.number
  {
    hide SocketsOk;
    hide RoomsOk;
    hide BoundOk;
    LifecycleProofs.ConnectNeverFindsRoomFull(s.db, step.number, step.session, s.clock);
    hide LifecycleProofs.Invariant;
  }

  lemma AddedRoom(rooms: Rooms, c: Connection)
    ensures forall m, x :: Holds(Added(rooms, c), m, x) <==> Holds(rooms, m, x) || (m == c.meetingId && x == c)
  {
  }

  /** What a connect does to the registry, as the service calls decide it. */
  lemma ConnectRegistry(s: State, number: MeetingId, session: RowId)
    ensures var t, a := ConnectSocket(s, number, session), Authenticate(s.db, number, session);
            if a.Ok? && RoomHasSpace(s.db, a.value.meetingId) then
              var c := Connection(s.next, a.value.id, a.value.meetingId);
              t.sockets == s.sockets[s.next := c] && t.running == s.running + {s.next} && t.rooms == Added(s.rooms, c)
            else t.sockets == s.sockets && t.running == s.running && t.rooms == s.rooms
  {
    hide ActiveRoster;
    hide Delivered;
    hide Authenticate;
    hide RoomHasSpace;
    hide Bind;
  }

  lemma ConnectWritesRegistry(s: State, step: Step)
    requires Invariant(s) && step.Connect?
    ensures RegistryWritten(s, step, Apply(s, step))
  {
    ConnectIs(s, step);
    Isolation.ConnectApplied(s, step);
    ConnectRegistry(s, step.number, step.session);
    hide Apply;
    hide ConnectSocket;
    hide Admits;
    hide Added;
    hide RoomOf;
    hide Invariant;
    hide RoomHasSpace;
    hide Authenticate;
    hide RegistryWritten;
    if Admits(s, step) {
      AdmittingWritesRegistry(s, step, Apply(s, step));
    } else {
      SameRegistry(s, step, Apply(s, step));
    }
  }

  lemma AdmittingWritesRegistry(s: State, step: Step, t: State)
    requires Admits(s, step)
    requires var c := Connection(s.next, step.session, step.number);
             t.sockets == s.sockets[s.next := c] && t.running == s.running + {s.next} && t.rooms == Added(s.rooms, c)
    ensures RegistryWritten(s, step, t)
  {
    AddedRoom(s.rooms, Connection(s.next, step.session, step.number));
    hide Added;
    hide RoomOf;
  }

  lemma IdsOfInvariant(s: State)
    requires Invariant(s)
    ensures forall r :: r in s.db.rows ==> s.db.rows[r].id == r
    ensures forall m :: m in s.db.meetings ==> s.db.meetings[m].id == m
    ensures forall m, x :: Holds(s.rooms, m, x) ==> x.meetingId == m && x.id in s.sockets && s.sockets[x.id] == x
    ensures forall c :: c in s.sockets ==> s.sockets[c].id == c && c in s.wires && c < s.next
    ensures s.running <= s.sockets.Keys
  {
  }

  lemma RemovedRoom(rooms: Rooms, c: Connection, m: MeetingId)
    ensures forall x :: Holds(Removed(rooms, c), m, x) <==>
              Holds(rooms, m, x) && !(m == c.meetingId && x.id == c.id)
  {
  }

  /** Exactly those of meeting `k` that `gone` names have left the registry. */
  ghost predicate LeftRoom(s: State, rooms: Rooms, k: MeetingId, gone: set<ConnId>) {
    forall m, x :: Holds(rooms, m, x) <==> Holds(s.rooms, m, x) && !(m == k && x.id in gone)
  }

  lemma LeavingWritesRegistry(s: State, step: Step, t: State, k: MeetingId, gone: set<ConnId>)
    requires !step.Connect? && t.sockets == s.sockets
    requires t.running == if step.Teardown? then s.running - {step.c} else s.running
    requires LeftRoom(s, t.rooms, k, gone)
    requires forall m, x :: Holds(s.rooms, m, x) ==> (Unregisters(s, step, x) <==> m == k && x.id in gone)
    ensures RegistryWritten(s, step, t)
  {
    forall m, x ensures Holds(t.rooms, m, x) <==> Holds(s.rooms, m, x) && !Unregisters(s, step, x) {
      if Holds(s.rooms, m, x) { assert Unregisters(s, step, x) <==> m == k && x.id in gone; }
    }
  }

  lemma RemovalLeaves(s: State, c: Connection)
    ensures LeftRoom(s, Removed(s.rooms, c), c.meetingId, {c.id})
  {
    forall m, x ensures Holds(Removed(s.rooms, c), m, x) <==>
                          Holds(s.rooms, m, x) && !(m == c.meetingId && x.id == c.id) {
      RemovedRoom(s.rooms, c, m);
    }
  }

  lemma TeardownUnregisters(s: State, step: Step)
    requires Invariant(s) && step.Teardown? && step.c in s.running
    ensures step.c in s.sockets && s.sockets[step.c].id == step.c
    ensures forall m, x :: Holds(s.rooms, m, x) ==>
              (Unregisters(s, step, x) <==> m == s.sockets[step.c].meetingId && x.id == step.c)
  {
    IdsOfInvariant(s);
    hide Invariant;
  }

  lemma TeardownRegistry(s: State, c: Connection)
    ensures var t := TeardownSocket(s, c);
            t.rooms == Removed(s.rooms, c) && t.sockets == s.sockets && t.running == s.running - {c.id}
  {
    hide Delivered;
    hide Removed;
    hide Lifecycle.Release;
  }

  lemma TeardownWritesRegistry(s: State, step: Step)
    requires Invariant(s) && step.Teardown?
    ensures RegistryWritten(s, step, Apply(s, step))
  {
    TeardownApplied(s, step.c);
    hide Apply;
    hide TeardownSocket;
    hide Invariant;
    hide RegistryWritten;
    if step.c in s.running {
      TeardownUnregisters(s, step);
      var c := s.sockets[step.c];
      TeardownRegistry(s, c);
      RemovalLeaves(s, c);
      LeavingWritesRegistry(s, step, Apply(s, step), c.meetingId, {c.id});
    } else {
      LeftRoomOfNobody(s);
      LeavingWritesRegistry(s, step, s, 0, {});
    }
  }

  lemma LeftRoomOfNobody(s: State)
    ensures LeftRoom(s, s.rooms, 0, {})
  {
  }

  lemma {:induction false} RemovedAllButRoom(rooms: Rooms, peers: seq<Connection>, keep: ConnId, m: MeetingId)
    ensures forall x :: Holds(RemovedAllBut(rooms, peers, keep), m, x) <==>
              Holds(rooms, m, x) && forall p :: p in peers && p.id != keep ==> !(m == p.meetingId && x.id == p.id)
    decreases |peers|
  {
    hide Removed;
    if peers != [] {
      var rest := if peers[0].id == keep then rooms else Removed(rooms, peers[0]);
      RemovedRoom(rooms, peers[0], m);
      RemovedAllButRoom(rest, peers[1..], keep, m);
      assert forall p :: p in peers <==> p == peers[0] || p in peers[1..];
    }
  }

  /** What the three columns of the registry are after a frame that changes none of them. */
  lemma SameRegistry(s: State, step: Step, t: State)
    requires t.sockets == s.sockets && t.running == s.running && t.rooms == s.rooms
    requires !Admits(s, step) && !step.Teardown? && forall m, x :: Holds(s.rooms, m, x) ==> !Unregisters(s, step, x)
    ensures RegistryWritten(s, step, t)
  {
  }

  lemma HostRemoveRegistry(s: State, c: ConnId, target: Option<RowId>)
    requires TablesTied(s) && SocketsOk(s) && c in s.sockets
    ensures var t := HandleHostRemove(s, s.sockets[c], target); var m := s.sockets[c].meetingId;
            && t.sockets == s.sockets && t.running == s.running
            && t.rooms == if Chairs(s, c) && Named(s, c, target) && target.value != s.sockets[c].participantId
                          then ClosedParticipant(s.rooms, m, target.value) else s.rooms
  {
    RequireHostIff(s, c);
    hide TablesTied;
    hide Delivered;
    hide ClosedParticipant;
    hide RequireHost;
    hide Chairs;
    hide Closed;
  }

  /** The socket a removal unregisters, if it unregisters one. */
  function Found(s: State, step: Step): Option<Connection>
    requires step.Receive? && step.frame.HostRemoveFrame?
  {
    if Removes(s, step) then Find(s.Room(s.sockets[step.c].meetingId), step.frame.target.value) else None
  }

  lemma HostRemoveUnregisters(s: State, step: Step)
    requires Invariant(s) && step.Receive? && step.frame.HostRemoveFrame? && From(s, step, step.c)
    ensures forall m, x :: Holds(s.rooms, m, x) ==>
              (Unregisters(s, step, x) <==>
                 m == s.sockets[step.c].meetingId && Found(s, step).Some? && x.id == Found(s, step).value.id)
  {
    IdsOfInvariant(s);
    hide Invariant;
    hide Chairs;
    hide Named;
  }

  lemma HostRemoveWritesRegistry(s: State, step: Step)
    requires Invariant(s) && step.Receive? && step.frame.HostRemoveFrame? && From(s, step, step.c)
    ensures RegistryWritten(s, step, HandleHostRemove(s, s.sockets[step.c], step.frame.target))
  {
    InvariantTies(s);
    InvariantFacts(s);
    IdsOfInvariant(s);
    HostRemoveRegistry(s, step.c, step.frame.target);
    HostRemoveUnregisters(s, step);
    hide Invariant;
    hide TablesTied;
    hide SocketsOk;
    hide RoomsOk;
    hide LifecycleProofs.Invariant;
    hide HandleHostRemove;
    hide Removed;
    hide Chairs;
    hide Named;
    hide Unregisters;
    hide RegistryWritten;
    var k := s.sockets[step.c].meetingId;
    var t := HandleHostRemove(s, s.sockets[step.c], step.frame.target);
    if Found(s, step).Some? {
      var found := Found(s, step).value;
      RemovalLeaves(s, found);
      LeavingWritesRegistry(s, step, t, k, {found.id});
    } else {
      LeftRoomOfNobody(s);
      LeavingWritesRegistry(s, step, t, 0, {});
    }
  }

  lemma {:induction false} HostEndRegistry(s: State, c: ConnId)
    requires TablesTied(s) && SocketsOk(s) && c in s.sockets
    ensures var t := HandleHostEnd(s, s.sockets[c]); var m := s.sockets[c].meetingId;
            && t.sockets == s.sockets && t.running == s.running
            && t.rooms == if Chairs(s, c) then RemovedAllBut(s.rooms, s.Room(m), c) else s.rooms
  {
    RequireHostIff(s, c);
    IdsAreKeys(s);
    hide TablesTied;
    hide Delivered;
    hide RemovedAllBut;
    hide RequireHost;
    hide Chairs;
    hide Evicted;
  }

  lemma HostEndUnregisters(s: State, step: Step)
    requires Invariant(s) && step.Receive? && step.frame.HostEndFrame? && From(s, step, step.c)
    ensures forall m, x :: Holds(s.rooms, m, x) ==>
              (Unregisters(s, step, x) <==> m == s.sockets[step.c].meetingId && Chairs(s, step.c) && x.id != step.c)
  {
    IdsOfInvariant(s);
    hide Invariant;
    hide Chairs;
    hide Named;
  }

  lemma {:induction false} EndLeaves(s: State, k: MeetingId, keep: ConnId)
    requires forall x :: Holds(s.rooms, k, x) ==> x.meetingId == k
    ensures LeftRoom(s, RemovedAllBut(s.rooms, s.Room(k), keep), k, Ids(s.Room(k)) - {keep})
  {
    hide RemovedAllBut;
    assert forall x :: Holds(s.rooms, k, x) ==> x.id in Ids(s.Room(k));
    forall m, x ensures Holds(RemovedAllBut(s.rooms, s.Room(k), keep), m, x) <==>
                          Holds(s.rooms, m, x) && !(m == k && x.id != keep) {
      RemovedAllButRoom(s.rooms, s.Room(k), keep, m);
    }
  }

  lemma HostEndWritesRegistry(s: State, step: Step)
    requires Invariant(s) && step.Receive? && step.frame.HostEndFrame? && From(s, step, step.c)
    ensures RegistryWritten(s, step, HandleHostEnd(s, s.sockets[step.c]))
  {
    InvariantTies(s);
    InvariantFacts(s);
    IdsOfInvariant(s);
    HostEndRegistry(s, step.c);
    HostEndUnregisters(s, step);
    hide Invariant;
    hide TablesTied;
    hide SocketsOk;
    hide RoomsOk;
    hide LifecycleProofs.Invariant;
    hide HandleHostEnd;
    hide RemovedAllBut;
    hide Chairs;
    hide Unregisters;
    hide RegistryWritten;
    var k := s.sockets[step.c].meetingId;
    var t := HandleHostEnd(s, s.sockets[step.c]);
    if Chairs(s, step.c) {
      EndLeaves(s, k, step.c);
      LeavingWritesRegistry(s, step, t, k, Ids(s.Room(k)) - {step.c});
    } else {
      LeftRoomOfNobody(s);
      LeavingWritesRegistry(s, step, t, 0, {});
    }
  }

  lemma ReceiveWritesRegistry(s: State, step: Step)
    requires Invariant(s) && step.Receive?
    ensures RegistryWritten(s, step, Apply(s, step))
  {
    hide Invariant;
    hide Apply;
    hide Handle;
    hide HandleHostRemove;
    hide HandleHostEnd;
    ReceiveApplied(s, step.c, step.frame);
    if From(s, step, step.c) {
      HandleApplied(s, s.sockets[step.c], step.frame);
      if step.frame.HostRemoveFrame? {
        HostRemoveWritesRegistry(s, step);
      } else if step.frame.HostEndFrame? {
        HostEndWritesRegistry(s, step);
      } else {
        HandlersLeaveRegistry(s, s.sockets[step.c], step.frame);
        SameRegistry(s, step, Apply(s, step));
      }
    } else {
      SameRegistry(s, step, Apply(s, step));
    }
  }

  /** Which sockets a step registers, runs, unregisters or stops. */
  lemma StepWritesRegistry(s: State, step: Step)
    requires Invariant(s)
    ensures RegistryWritten(s, step, Apply(s, step))
  {
    hide Invariant;
    hide Apply;
    hide RegistryWritten;
    match step {
      case Receive(_, _) => ReceiveWritesRegistry(s, step);
      case Connect(_, _) => ConnectWritesRegistry(s, step);
      case Teardown(_) => TeardownWritesRegistry(s, step);
      case _ => RestLeavesRegistryAlone(s, step);
    }
  }

  lemma RegistryOfEveryRun(steps: seq<Step>, step: Step)
    ensures RegistryWritten(Run(steps), step, Run(steps + [step]))
  {
    hide Invariant;
    hide RegistryWritten;
    Reachable(steps);
    RunStep(steps, step);
    StepWritesRegistry(Run(steps), step);
  }

  // --- What each socket is told -----------------------------------------------------------------------------

  predicate InRoom(s: State, m: MeetingId, d: ConnId) {
    exists x :: x in s.Room(m) && x.id == d
  }

  function Only(told: bool, f: ServerFrame): seq<ServerFrame> {
    if told then [f] else []
  }

  /** A notice to the found socket of each muted row, and the news of it to the room, row after row. */
  function MuteNews(s: State, c: Connection, ids: seq<RowId>, d: ConnId): seq<ServerFrame>
    requires forall i :: 0 <= i < |ids| ==> ids[i] in s.db.rows
    decreases |ids|
  {
    if ids == [] then []
    else
      Only(d in Target(s.Room(c.meetingId), ids[0]), HostMutedYou(c.participantId))
      + Only(InRoom(s, c.meetingId, d), PeerUpdated(ids[0], s.db.rows[ids[0]].flags.(muted := true)))
      + MuteNews(s, c, ids[1..], d)
  }

  /** Why the frame of a running socket is not obeyed, if it is not. */
  function Refused(s: State, c: Connection, frame: ClientFrame): Option<ErrorCode>
    requires c.participantId in s.db.rows
  {
    var chairs := OwnedBy(s, c.meetingId, s.db.rows[c.participantId].userId);
    match frame
    case Unrecognized => Some(UnknownFrame)
    case Signal(_, to, _) =>
      if to.None? then Some(BadFrame)
      else if forall x :: x in s.Room(c.meetingId) ==> x.participantId != to.value then Some(PeerNotInRoom)
      else None
    case HostMuteFrame(target) =>
      if target.None? then Some(BadFrame)
      else if !chairs then Some(NotHost)
      else if target.value !in s.db.rows || s.db.rows[target.value].meetingId != c.meetingId
      then Some(ParticipantNotFound)
      else None
    case HostRemoveFrame(target) =>
      if target.None? then Some(BadFrame)
      else if !chairs then Some(NotHost)
      else if target.value !in s.db.rows || s.db.rows[target.value].meetingId != c.meetingId
      then Some(ParticipantNotFound)
      else if target.value == c.participantId then Some(CannotRemoveSelf)
      else None
    case HostMuteAllFrame => if chairs then None else Some(NotHost)
    case HostEndFrame => if chairs then None else Some(NotHost)
    case _ => None
  }

  /** What socket `d` is told when the running socket `c` sends a frame: of a refusal, the sender alone. */
  function HeardFrom(s: State, c: Connection, frame: ClientFrame, d: ConnId): seq<ServerFrame>
    requires c.participantId in s.db.rows
  {
    var p, m := c.participantId, c.meetingId;
    var mine, room := d == c.id, InRoom(s, m, d);
    if Refused(s, c, frame).Some? then Only(mine, Error(Refused(s, c, frame).value))
    else
      match frame
      case Ping => Only(mine, Pong)
      case Signal(kind, to, payload) => Only(d in Target(s.Room(m), to.value), Relayed(kind, p, payload))
      case StateUpdate(changes) => Only(room, PeerUpdated(p, Patched(s.db.rows[p].flags, changes)))
      case ChatSend(body) => Only(room, ChatMessage(p, body))
      case HostMuteFrame(target) => MuteNews(s, c, [target.value], d)
      case HostMuteAllFrame =>
        var ids := Ascending(OpenRows(s.db.rows, m) - {p});
        assert forall i :: 0 <= i < |ids| ==> ids[i] in OpenRows(s.db.rows, m) - {p};
        MuteNews(s, c, ids, d)
      case HostRemoveFrame(target) =>
        Only(d in Target(s.Room(m), target.value), HostRemovedYou(p)) + Only(room, PeerLeft(target.value))
      case HostEndFrame => Only(room, MeetingEnded(p))
      case Unrecognized => []
  }

  /** What a step adds to the log of socket `d`, said of the state before it. */
  function Told(s: State, step: Step, d: ConnId): seq<ServerFrame> {
    match step
    case Connect(number, session) =>
      if Admits(s, step) then Only(InRoom(s, number, d), PeerJoined(Serialize(s.db.rows[session]))) else []
    case Teardown(c) =>
      if c in s.running && c in s.sockets && s.sockets[c].participantId in s.db.rows
         && s.db.rows[s.sockets[c].participantId].connectionId == Some(c)
      then Only(d != c && InRoom(s, s.sockets[c].meetingId, d), PeerLeft(s.sockets[c].participantId)) else []
    case Receive(c, frame) =>
      if From(s, step, c) && s.sockets[c].participantId in s.db.rows then HeardFrom(s, s.sockets[c], frame, d) else []
    case _ => []
  }

  ghost predicate LogsWritten(s: State, step: Step, t: State) {
    forall d :: d in s.wires ==> d in t.wires && t.wires[d] == s.wires[d] + Told(s, step, d)
  }

  lemma SentToRoom(s: State, m: MeetingId, f: ServerFrame, d: ConnId)
    requires d in s.wires
    ensures var t := ToRoom(s, m, f, None); d in t.wires && t.wires[d] == s.wires[d] + Only(InRoom(s, m, d), f)
  {
    assert s.wires[d] + [] == s.wires[d];
    assert d in Recipients(s.Room(m), None) <==> InRoom(s, m, d);
  }

  lemma SentToParticipant(s: State, m: MeetingId, r: RowId, f: ServerFrame, d: ConnId)
    requires d in s.wires
    ensures var t := ToParticipant(s, m, r, f);
            d in t.wires && t.wires[d] == s.wires[d] + Only(d in Target(s.Room(m), r), f)
  {
    assert s.wires[d] + [] == s.wires[d];
  }

  lemma SentToSocket(s: State, c: ConnId, f: ServerFrame, d: ConnId)
    requires d in s.wires
    ensures var t := ToSocket(s, c, f); d in t.wires && t.wires[d] == s.wires[d] + Only(d == c, f)
  {
    assert s.wires[d] + [] == s.wires[d];
  }

  lemma NoticeIsHeard(s: State, c: Connection, r: RowId, d: ConnId)
    requires d in s.wires && r in s.db.rows
    ensures var t := MuteNotice(s, c, r);
            && d in t.wires && t.rooms == s.rooms && t.db == s.db
            && t.wires[d] == s.wires[d] + Only(d in Target(s.Room(c.meetingId), r), HostMutedYou(c.participantId))
                             + Only(InRoom(s, c.meetingId, d), PeerUpdated(r, s.db.rows[r].flags))
  {
    hide Delivered;
    var told := ToParticipant(s, c.meetingId, r, HostMutedYou(c.participantId));
    SentToParticipant(s, c.meetingId, r, HostMutedYou(c.participantId), d);
    SentToRoom(told, c.meetingId, PeerUpdated(r, s.db.rows[r].flags), d);
  }

  /** The rows the notices speak of are muted, and otherwise as before the frame. */
  ghost predicate NowMuted(s: State, u: State, ids: seq<RowId>) {
    forall i :: 0 <= i < |ids| ==>
      ids[i] in s.db.rows && ids[i] in u.db.rows
      && u.db.rows[ids[i]].flags == s.db.rows[ids[i]].flags.(muted := true)
  }

  lemma {:induction false} NoticesAreHeard(s: State, u: State, c: Connection, ids: seq<RowId>, d: ConnId)
    requires u.rooms == s.rooms && NowMuted(s, u, ids) && d in u.wires
    ensures var t := MuteNotices(u, c, ids); d in t.wires && t.wires[d] == u.wires[d] + MuteNews(s, c, ids, d)
    decreases |ids|
  {
    hide Only;
    hide MuteNotice;
    if ids == [] {
      assert u.wires[d] + [] == u.wires[d];
    } else {
      var next := MuteNotice(u, c, ids[0]);
      NoticeIsHeard(u, c, ids[0], d);
      assert NowMuted(s, next, ids[1..]);
      NoticesAreHeard(s, next, c, ids[1..], d);
    }
  }

  // --- Each frame --------------------------------------------------------------------------------------------

  lemma ChairsIs(s: State, c: ConnId)
    requires SocketsOk(s) && c in s.sockets
    ensures s.sockets[c].participantId in s.db.rows && s.sockets[c].id == c
    ensures Chairs(s, c) == OwnedBy(s, s.sockets[c].meetingId, s.db.rows[s.sockets[c].participantId].userId)
  {
  }

  /** A frame that is not obeyed has its sender told why, and does nothing else. */
  lemma RefusedFrameDoesNothing(s: State, c: ConnId, frame: ClientFrame)
    requires TablesTied(s) && SocketsOk(s) && c in s.sockets
    ensures s.sockets[c].participantId in s.db.rows
    ensures var refused := Refused(s, s.sockets[c], frame);
            refused.Some? ==> Handle(s, s.sockets[c], frame) == ToSocket(s, c, Error(refused.value))
  {
    RequireHostIff(s, c);
    ChairsIs(s, c);
    hide TablesTied;
    hide SocketsOk;
    hide RequireHost;
    hide Chairs;
    hide OwnedBy;
    hide ToSocket;
    hide ToRoom;
    hide ToParticipant;
    hide Closed;
    hide EndedAndEvicted;
    hide Mutable;
    hide MuteNotice;
    hide ClosedParticipant;
    hide RemovedAllBut;
  }

  lemma PlainFrameIsHeard(s: State, c: Connection, frame: ClientFrame, d: ConnId)
    requires d in s.wires && c.participantId in s.db.rows && Refused(s, c, frame).None?
    requires frame.Ping? || frame.ChatSend? || frame.Signal?
    ensures var t := Handle(s, c, frame); d in t.wires && t.wires[d] == s.wires[d] + HeardFrom(s, c, frame, d)
  {
    hide Delivered;
    hide Only;
    match frame {
      case Ping => SentToSocket(s, c.id, Pong, d);
      case ChatSend(body) => SentToRoom(s, c.meetingId, ChatMessage(c.participantId, body), d);
      case Signal(kind, to, payload) =>
        SentToParticipant(s, c.meetingId, to.value, Relayed(kind, c.participantId, payload), d);
    }
  }

  lemma StateUpdateIsHeard(s: State, c: Connection, changes: Changes, d: ConnId)
    requires d in s.wires && c.participantId in s.db.rows && s.db.rows[c.participantId].id == c.participantId
    ensures var t := HandleStateUpdate(s, c, changes);
            d in t.wires && t.wires[d] == s.wires[d] + HeardFrom(s, c, StateUpdate(changes), d)
  {
    hide Delivered;
    hide Only;
    hide Patched;
    var p := c.participantId;
    var db := ApplyStateUpdate(s.db, p, changes).value;
    SentToRoom(s.(db := db), c.meetingId, PeerUpdated(p, db.rows[p].flags), d);
  }

  lemma HostMuteIsHeard(s: State, c: Connection, target: RowId, d: ConnId)
    requires d in s.wires && c.participantId in s.db.rows && target in s.db.rows
    requires RequireHost(s.db, s.db.rows[c.participantId]).Ok? && s.db.rows[target].id == target
    requires s.db.rows[target].meetingId == s.db.rows[c.participantId].meetingId == c.meetingId
    requires Refused(s, c, HostMuteFrame(Some(target))).None?
    ensures var t := HandleHostMute(s, c, Some(target));
            d in t.wires && t.wires[d] == s.wires[d] + HeardFrom(s, c, HostMuteFrame(Some(target)), d)
  {
    hide Delivered;
    hide Only;
    hide RequireHost;
    hide Refused;
    hide MuteNotice;
    var u := s.(db := WithRow(s.db, s.db.rows[target].(flags := s.db.rows[target].flags.(muted := true))));
    NoticesAreHeard(s, u, c, [target], d);
    assert MuteNotices(u, c, [target]) == MuteNotice(u, c, target);
  }

  lemma HostMuteAllIsHeard(s: State, c: Connection, d: ConnId)
    requires d in s.wires && c.participantId in s.db.rows && s.db.rows[c.participantId].id == c.participantId
    requires RequireHost(s.db, s.db.rows[c.participantId]).Ok? && s.db.rows[c.participantId].meetingId == c.meetingId
    requires Refused(s, c, HostMuteAllFrame).None?
    ensures var t := HandleHostMuteAll(s, c);
            d in t.wires && t.wires[d] == s.wires[d] + HeardFrom(s, c, HostMuteAllFrame, d)
  {
    hide Delivered;
    hide Only;
    hide RequireHost;
    hide Refused;
    hide OpenRows;
    var muted := OpenRows(s.db.rows, c.meetingId) - {c.participantId};
    var u := s.(db := HostMuteAll(s.db, s.db.rows[c.participantId]).value);
    OpenRowsAreRows(s.db.rows, c.meetingId);
    assert forall i :: 0 <= i < |Ascending(muted)| ==> Ascending(muted)[i] in muted;
    NoticesAreHeard(s, u, c, Ascending(muted), d);
  }

  lemma OpenRowsAreRows(rows: Rows, m: MeetingId)
    ensures OpenRows(rows, m) <= rows.Keys
  {
  }

  lemma HostRemoveIsHeard(s: State, c: Connection, target: RowId, d: ConnId)
    requires d in s.wires && c.participantId in s.db.rows && target in s.db.rows
    requires RequireHost(s.db, s.db.rows[c.participantId]).Ok? && s.db.rows[target].id == target
    requires s.db.rows[target].meetingId == s.db.rows[c.participantId].meetingId == c.meetingId
    requires target != s.db.rows[c.participantId].id == c.participantId
    requires Refused(s, c, HostRemoveFrame(Some(target))).None?
    ensures var t := HandleHostRemove(s, c, Some(target));
            d in t.wires && t.wires[d] == s.wires[d] + HeardFrom(s, c, HostRemoveFrame(Some(target)), d)
  {
    hide Delivered;
    hide Only;
    hide RequireHost;
    hide Refused;
    hide ClosedParticipant;
    hide Closed;
    var p, m := c.participantId, c.meetingId;
    var u := s.(db := WithRow(s.db, Closed(s.db.rows[target], s.clock)));
    SentToParticipant(u, m, target, HostRemovedYou(p), d);
    SentToRoom(ToParticipant(u, m, target, HostRemovedYou(p)), m, PeerLeft(target), d);
  }

  lemma HostEndIsHeard(s: State, c: Connection, d: ConnId)
    requires d in s.wires && c.participantId in s.db.rows
    requires RequireHost(s.db, s.db.rows[c.participantId]).Ok? && Refused(s, c, HostEndFrame).None?
    ensures var t := HandleHostEnd(s, c);
            d in t.wires && t.wires[d] == s.wires[d] + HeardFrom(s, c, HostEndFrame, d)
  {
    hide Delivered;
    hide Only;
    hide RequireHost;
    hide Refused;
    hide RemovedAllBut;
    hide EndedAndEvicted;
    var db := HostEnd(s.db, s.db.rows[c.participantId], s.clock).value;
    SentToRoom(s.(db := db), c.meetingId, MeetingEnded(c.participantId), d);
  }

  lemma FrameIsHeard(s: State, c: ConnId, frame: ClientFrame, d: ConnId)
    requires TablesTied(s) && SocketsOk(s) && c in s.sockets && d in s.wires
    ensures s.sockets[c].participantId in s.db.rows
    ensures var t := Handle(s, s.sockets[c], frame);
            d in t.wires && t.wires[d] == s.wires[d] + HeardFrom(s, s.sockets[c], frame, d)
  {
    IdsAreKeys(s);
    RequireHostIff(s, c);
    ChairsIs(s, c);
    RefusedFrameDoesNothing(s, c, frame);
    HandleApplied(s, s.sockets[c], frame);
    hide TablesTied;
    hide Handle;
    hide MuteNews;
    hide Chairs;
    hide OwnedBy;
    hide RequireHost;
    hide Only;
    hide ToSocket;
    hide HandleStateUpdate;
    hide HandleHostMute;
    hide HandleHostMuteAll;
    hide HandleHostRemove;
    hide HandleHostEnd;
    var refused := Refused(s, s.sockets[c], frame);
    if refused.Some? {
      SentToSocket(s, c, Error(refused.value), d);
    } else {
      match frame {
        case StateUpdate(changes) => StateUpdateIsHeard(s, s.sockets[c], changes, d);
        case HostMuteFrame(target) => HostMuteIsHeard(s, s.sockets[c], target.value, d);
        case HostMuteAllFrame => HostMuteAllIsHeard(s, s.sockets[c], d);
        case HostRemoveFrame(target) => HostRemoveIsHeard(s, s.sockets[c], target.value, d);
        case HostEndFrame => HostEndIsHeard(s, s.sockets[c], d);
        case Unrecognized => assert false;
        case Ping => PlainFrameIsHeard(s, s.sockets[c], frame, d);
        case ChatSend(_) => PlainFrameIsHeard(s, s.sockets[c], frame, d);
        case Signal(_, _, _) => PlainFrameIsHeard(s, s.sockets[c], frame, d);
      }
    }
  }

  // --- Connects and teardowns -----------------------------------------------------------------------------

  lemma ConnectIsHeard(s: State, step: Step, d: ConnId)
    requires Invariant(s) && step.Connect? && d in s.wires
    ensures var t := Apply(s, step); d in t.wires && t.wires[d] == s.wires[d] + Told(s, step, d)
  {
    ConnectIs(s, step);
    ConnectSends(s, step.number, step.session);
    Isolation.ConnectApplied(s, step);
    Isolation.ConnectAppends(s, step.number, step.session);
    hide Apply;
    hide ConnectSocket;
    hide Invariant;
    hide Admits;
    hide Authenticate;
    hide RoomHasSpace;
    hide InRoom;
    hide Ids;
    hide Serialize;
    assert s.wires[d] + [] == s.wires[d];
    RoomIds(s, step.number, d);
  }

  lemma RoomIds(s: State, m: MeetingId, d: ConnId)
    ensures d in Ids(s.Room(m)) <==> InRoom(s, m, d)
  {
  }

  lemma ConnectSends(s: State, number: MeetingId, session: RowId)
    requires Invariant(s)
    ensures var a := Authenticate(s.db, number, session);
            s.next in ConnectSocket(s, number, session).sockets <==> a.Ok? && RoomHasSpace(s.db, a.value.meetingId)
  {
    NextIsUnused(s);
    hide Invariant;
    ConnectRegistry(s, number, session);
    hide ConnectSocket;
    hide Authenticate;
    hide RoomHasSpace;
  }

  lemma TeardownIsHeard(s: State, c: Connection, d: ConnId)
    requires d in s.wires && c.id in s.running && c.participantId in s.db.rows
    requires c.id in s.sockets && s.sockets[c.id] == c
    ensures var t := TeardownSocket(s, c);
            d in t.wires && t.wires[d] == s.wires[d] + Told(s, Teardown(c.id), d)
  {
    hide Delivered;
    hide Closed;
    hide Removed;
    assert s.wires[d] + [] == s.wires[d];
    if s.db.rows[c.participantId].connectionId == Some(c.id) {
      var gone := s.(rooms := Removed(s.rooms, c), running := s.running - {c.id},
                     db := Release(s.db, c.participantId, c.id, s.clock).value);
      SentToRoom(gone, c.meetingId, PeerLeft(c.participantId), d);
      RemovedRoom(s.rooms, c, c.meetingId);
    }
  }

  lemma ReceiveIsHeard(s: State, step: Step, d: ConnId)
    requires TablesTied(s) && SocketsOk(s) && step.Receive? && d in s.wires
    ensures var t := Apply(s, step); d in t.wires && t.wires[d] == s.wires[d] + Told(s, step, d)
  {
    hide TablesTied;
    hide Apply;
    hide Handle;
    hide HeardFrom;
    assert s.wires[d] + [] == s.wires[d];
    ReceiveApplied(s, step.c, step.frame);
    if From(s, step, step.c) { FrameIsHeard(s, step.c, step.frame, d); }
  }

  lemma TeardownStepIsHeard(s: State, step: Step, d: ConnId)
    requires SocketsOk(s) && step.Teardown? && d in s.wires
    ensures var t := Apply(s, step); d in t.wires && t.wires[d] == s.wires[d] + Told(s, step, d)
  {
    TeardownApplied(s, step.c);
    hide Apply;
    hide TeardownSocket;
    hide Told;
    if step.c in s.running { TeardownIsHeard(s, s.sockets[step.c], d); } else { SilentStep(s, step, d); }
  }

  lemma StepIsHeard(s: State, step: Step, d: ConnId)
    requires Invariant(s) && TablesTied(s) && SocketsOk(s) && d in s.wires
    ensures var t := Apply(s, step); d in t.wires && t.wires[d] == s.wires[d] + Told(s, step, d)
  {
    hide Invariant;
    hide TablesTied;
    hide SocketsOk;
    hide Apply;
    hide Told;
    match step {
      case Receive(_, _) => ReceiveIsHeard(s, step, d);
      case Connect(_, _) => ConnectIsHeard(s, step, d);
      case Teardown(_) => TeardownStepIsHeard(s, step, d);
      case _ =>
        RestTellsNobody(s, step);
        SilentStep(s, step, d);
    }
  }

  /** What each step adds to each log, in order. */
  lemma StepWritesLogs(s: State, step: Step)
    requires Invariant(s)
    ensures LogsWritten(s, step, Apply(s, step))
  {
    hide Invariant;
    hide TablesTied;
    hide SocketsOk;
    hide Apply;
    hide Told;
    InvariantTies(s);
    SocketsOfInvariant(s);
    forall d | d in s.wires
      ensures d in Apply(s, step).wires && Apply(s, step).wires[d] == s.wires[d] + Told(s, step, d)
    {
      StepIsHeard(s, step, d);
    }
  }

  lemma SocketsOfInvariant(s: State)
    requires Invariant(s)
    ensures SocketsOk(s)
  {
  }

  lemma SilentStep(s: State, step: Step, d: ConnId)
    requires d in s.wires && (IsRest(step) || (step.Teardown? && step.c !in s.running))
    ensures s.wires[d] + Told(s, step, d) == s.wires[d]
  {
  }

  lemma RestTellsNobody(s: State, step: Step)
    requires IsRest(step)
    ensures Apply(s, step).wires == s.wires
  {
    hide Evicted;
  }

  lemma LogsOfEveryRun(steps: seq<Step>, step: Step)
    ensures LogsWritten(Run(steps), step, Run(steps + [step]))
  {
    hide Invariant;
    hide LogsWritten;
    Reachable(steps);
    RunStep(steps, step);
    StepWritesLogs(Run(steps), step);
  }
}
