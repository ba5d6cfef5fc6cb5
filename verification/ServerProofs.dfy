// What holds in every reachable state of the room protocol, and what each step may change.

module ServerProofs {
  import opened Model
  import opened Lifecycle
  import LifecycleProofs
  import opened Protocol
  import opened Registry
  import opened Server

  // --- The invariant -----------------------------------------------------------------

  ghost predicate IdsMinted(s: State) {
    && (forall m :: m in s.db.meetings ==> m < s.next)
    && (forall r :: r in s.db.rows ==> r < s.next)
    && (forall c :: c in s.sockets ==> c < s.next)
  }

  /** A socket's row belongs to the socket's meeting. */
  ghost predicate SocketsOk(s: State) {
    && s.wires.Keys == s.sockets.Keys
    && s.running <= s.sockets.Keys
    && (forall c :: c in s.sockets ==>
          && s.sockets[c].id == c
          && s.sockets[c].participantId in s.db.rows
          && s.db.rows[s.sockets[c].participantId].meetingId == s.sockets[c].meetingId)
  }

  /** Every registered connection sits under its own meeting, and no empty room is stored. */
  ghost predicate RoomsOk(s: State) {
    forall m :: m in s.rooms ==>
      && s.rooms[m] != []
      && Chronological(s.rooms[m])
      && forall c :: c in s.rooms[m] ==>
           c.meetingId == m && c.id in s.running && c.id in s.sockets && s.sockets[c.id] == c
  }

  predicate Owns(s: State, c: ConnId) {
    && c in s.sockets
    && s.sockets[c].participantId in s.db.rows
    && s.db.rows[s.sockets[c].participantId].connectionId == Some(c)
  }

  /** A row that names a socket is open; the socket is the row's youngest, and it is registered and running. */
  ghost predicate BoundOk(s: State) {
    forall r :: r in s.db.rows && s.db.rows[r].connectionId.Some? ==>
      var c := s.db.rows[r].connectionId.value;
      && s.db.rows[r].leftAt.None?
      && c in s.running && c in s.sockets && s.sockets[c].participantId == r
      && s.sockets[c] in s.Room(s.sockets[c].meetingId)
      && forall d :: d in s.sockets && s.sockets[d].participantId == r ==> d <= c
  }

  /** What does not depend on a connect being one step. */
  ghost predicate Core(s: State) {
    LifecycleProofs.Invariant(s.db, s.clock) && IdsMinted(s) && SocketsOk(s) && RoomsOk(s)
  }

  ghost predicate Invariant(s: State) {
    Core(s) && BoundOk(s)
  }

  // --- Building blocks -----------------------------------------------------------------

  /** Only the logs of sockets change when frames are sent. */
  predicate OnlyWires(s: State, t: State) {
    t == s.(wires := t.wires) && t.wires.Keys == s.wires.Keys
  }

  lemma SendingKeeps(s: State, t: State)
    requires Core(s) && OnlyWires(s, t)
    ensures Core(t) && LifecycleProofs.Calm(s.db, t.db, s.clock)
  {
    hide LifecycleProofs.Invariant;
    hide LifecycleProofs.Calm;
    SkipIsCalm(s);
  }

  lemma SkipIsCalm(s: State)
    requires Core(s)
    ensures LifecycleProofs.Calm(s.db, s.db, s.clock)
  {
    LifecycleProofs.SkipSteps(s.db, s.clock, s.clock);
    hide LifecycleProofs.Calm;
  }

  lemma DbKeepsSockets(s: State, db: Db)
    requires SocketsOk(s) && LifecycleProofs.HistoryKept(s.db, db)
    ensures SocketsOk(s.(db := db))
  {
    forall c | c in s.sockets
      ensures s.sockets[c].participantId in db.rows
      ensures db.rows[s.sockets[c].participantId].meetingId == s.sockets[c].meetingId
    {
      assert LifecycleProofs.RowKept(s.db.rows[s.sockets[c].participantId], db.rows[s.sockets[c].participantId]);
    }
  }

  lemma DbKeepsIds(s: State, db: Db, minted: set<nat>, next: nat)
    requires IdsMinted(s) && s.next <= next && (forall x :: x in minted ==> x < next)
    requires db.meetings.Keys <= s.db.meetings.Keys + minted && db.rows.Keys <= s.db.rows.Keys + minted
    ensures IdsMinted(s.(db := db, next := next))
  {
  }

  /** A database move that mints below `next`. */
  lemma DbKeeps(s: State, db: Db, minted: set<nat>, next: nat)
    requires Core(s) && s.next <= next && (forall x :: x in minted ==> x < next)
    requires LifecycleProofs.Move(s.db, db, minted, s.clock)
    ensures Core(s.(db := db, next := next))
    ensures LifecycleProofs.Calm(s.db, db, s.clock)
  {
    hide LifecycleProofs.Invariant;
    hide LifecycleProofs.StatusDiscipline;
    hide LifecycleProofs.HistoryKept;
    hide LifecycleProofs.BindsNothing;
    hide IdsMinted;
    DbKeepsIds(s, db, minted, next);
    DbKeepsSockets(s, db);
  }

  lemma CoreFacts(s: State)
    requires Core(s)
    ensures LifecycleProofs.Invariant(s.db, s.clock)
    ensures forall m :: m in s.db.meetings ==> s.db.meetings[m].id == m
    ensures forall r :: r in s.db.rows ==> s.db.rows[r].id == r
    ensures SocketsOk(s) && RoomsOk(s)
  {
  }

  lemma InvariantFacts(s: State)
    requires Invariant(s)
    ensures LifecycleProofs.Invariant(s.db, s.clock)
    ensures forall m :: m in s.db.meetings ==> s.db.meetings[m].id == m
    ensures forall r :: r in s.db.rows ==> s.db.rows[r].id == r
    ensures SocketsOk(s) && RoomsOk(s)
  {
  }

  /** The usual shape of a handler: a database move, then frames. */
  lemma DbThenSend(s: State, db: Db, t: State)
    requires Core(s)
    requires LifecycleProofs.Move(s.db, db, {}, s.clock)
    requires OnlyWires(s.(db := db), t)
    ensures Core(t) && LifecycleProofs.Calm(s.db, db, s.clock)
  {
    hide LifecycleProofs.Move;
    hide LifecycleProofs.Calm;
    hide Core;
    DbKeeps(s, db, {}, s.next);
    assert s.(db := db, next := s.next) == s.(db := db);
    SendingKeeps(s.(db := db), t);
  }

  lemma RemovalKeepsRooms(s: State, c: Connection)
    requires RoomsOk(s)
    ensures RoomsOk(s.(rooms := Removed(s.rooms, c)))
  {
    if c.meetingId in s.rooms {
      WithoutKeepsOrder(s.rooms[c.meetingId], c.id);
    }
  }

  lemma RemovalKeeps(s: State, c: Connection)
    requires Core(s)
    ensures Core(s.(rooms := Removed(s.rooms, c)))
  {
    hide LifecycleProofs.Invariant;
    hide RoomsOk;
    RemovalKeepsRooms(s, c);
  }

  lemma StoppingKeeps(s: State, c: ConnId)
    requires Core(s) && c in s.sockets
    requires s.sockets[c] !in s.Room(s.sockets[c].meetingId)
    ensures Core(s.(running := s.running - {c}))
  {
    hide LifecycleProofs.Invariant;
    var t := s.(running := s.running - {c});
    forall m | m in t.rooms
      ensures forall d :: d in t.rooms[m] ==> d.id in t.running
    {
    }
  }

  // --- Each step ---------------------------------------------------------------------

  lemma AdmissionKeepsRooms(s: State, c: Connection, p: Participant)
    requires Core(s) && c == Connection(s.next, p.id, p.meetingId)
    ensures RoomsOk(Admitted(s, c, p))
  {
    hide LifecycleProofs.Invariant;
    hide ActiveRoster;
    hide Bind;
    var t := Admitted(s, c, p);
    var room := s.Room(c.meetingId);
    assert t.rooms[c.meetingId] == room + [c];
    forall i | 0 <= i < |room| ensures room[i].id < c.id {
      assert room[i] in room && room[i].id in s.running;
    }
  }

  lemma AdmissionKeepsSockets(s: State, c: Connection, p: Participant)
    requires Core(s) && c == Connection(s.next, p.id, p.meetingId)
    requires p.id in s.db.rows && s.db.rows[p.id] == p
    ensures SocketsOk(Admitted(s, c, p)) && IdsMinted(Admitted(s, c, p))
  {
    hide LifecycleProofs.Invariant;
    hide RoomsOk;
  }

  lemma AdmissionKeeps(s: State, c: Connection, p: Participant)
    requires Core(s) && c == Connection(s.next, p.id, p.meetingId)
    requires p.id in s.db.rows && s.db.rows[p.id] == p
    ensures Core(Admitted(s, c, p))
    ensures LifecycleProofs.Step(s.db, Admitted(s, c, p).db, s.clock)
  {
    hide LifecycleProofs.Invariant;
    hide LifecycleProofs.StatusDiscipline;
    hide LifecycleProofs.HistoryKept;
    hide IdsMinted;
    hide SocketsOk;
    hide RoomsOk;
    AdmissionKeepsSockets(s, c, p);
    AdmissionKeepsRooms(s, c, p);
    LifecycleProofs.BindSteps(s.db, p.id, c.id, s.clock, s.clock);
  }

  lemma CalmIsStep(s: State)
    requires Core(s)
    ensures LifecycleProofs.Step(s.db, s.db, s.clock)
  {
    hide LifecycleProofs.Step;
    SkipIsCalm(s);
  }

  lemma ConnectKeepsCore(s: State, number: MeetingId, session: RowId)
    requires Core(s)
    ensures Core(ConnectSocket(s, number, session))
    ensures LifecycleProofs.Step(s.db, ConnectSocket(s, number, session).db, s.clock)
  {
    hide LifecycleProofs.Invariant;
    hide LifecycleProofs.Move;
    hide LifecycleProofs.Calm;
    hide LifecycleProofs.Step;
    hide Core;
    hide SocketsOk;
    hide RoomsOk;
    CoreFacts(s);
    var a := Authenticate(s.db, number, session);
    if a.Ok? {
      LifecycleProofs.ConnectNeverFindsRoomFull(s.db, number, session, s.clock);
      var c := Connection(s.next, a.value.id, a.value.meetingId);
      AdmissionKeeps(s, c, a.value);
      SendingKeeps(Admitted(s, c, a.value), ConnectSocket(s, number, session));
    } else {
      CalmIsStep(s);
    }
  }

  lemma TeardownKeepsCore(s: State, c: Connection)
    requires Core(s) && c.id in s.sockets && s.sockets[c.id] == c
    ensures Core(TeardownSocket(s, c))
    ensures LifecycleProofs.Calm(s.db, TeardownSocket(s, c).db, s.clock)
  {
    hide LifecycleProofs.Invariant;
    hide LifecycleProofs.Move;
    hide LifecycleProofs.Calm;
    hide Core;
    hide SocketsOk;
    hide RoomsOk;
    CoreFacts(s);
    var db := Release(s.db, c.participantId, c.id, s.clock);
    if db.Some? {
      LifecycleProofs.CloseSteps(s.db, c.participantId, s.clock, s.clock);
      DbKeeps(s, db.value, {}, s.next);
      Unregistering(s.(db := db.value), c, TeardownSocket(s, c));
    } else {
      SkipIsCalm(s);
      Unregistering(s, c, TeardownSocket(s, c));
    }
  }

  /** A socket leaves the registry, its handler finishes, and frames may follow. */
  lemma Unregistering(s: State, c: Connection, t: State)
    requires Core(s) && c.id in s.sockets && s.sockets[c.id] == c
    requires OnlyWires(s.(rooms := Removed(s.rooms, c), running := s.running - {c.id}), t)
    ensures Core(t)
  {
    hide Core;
    RemovalKeeps(s, c);
    var gone := s.(rooms := Removed(s.rooms, c));
    StoppingKeeps(gone, c.id);
    SendingKeeps(gone.(running := s.running - {c.id}), t);
  }

  lemma StateUpdateKeeps(s: State, c: Connection, changes: Changes)
    requires Core(s)
    ensures Core(HandleStateUpdate(s, c, changes))
    ensures LifecycleProofs.Calm(s.db, HandleStateUpdate(s, c, changes).db, s.clock)
  {
    hide LifecycleProofs.Invariant;
    hide LifecycleProofs.Move;
    hide LifecycleProofs.Calm;
    hide Core;
    hide SocketsOk;
    hide RoomsOk;
    CoreFacts(s);
    var t := HandleStateUpdate(s, c, changes);
    if ApplyStateUpdate(s.db, c.participantId, changes).Ok? {
      LifecycleProofs.FlagSteps(s.db, c.participantId, Patched(s.db.rows[c.participantId].flags, changes),
          s.clock, s.clock);
      DbThenSend(s, t.db, t);
    } else {
      SendingKeeps(s, t);
    }
  }

  lemma HostMuteKeeps(s: State, c: Connection, target: Option<RowId>)
    requires Core(s)
    ensures Core(HandleHostMute(s, c, target))
    ensures LifecycleProofs.Calm(s.db, HandleHostMute(s, c, target).db, s.clock)
  {
    hide LifecycleProofs.Invariant;
    hide LifecycleProofs.Move;
    hide LifecycleProofs.Calm;
    hide Core;
    hide SocketsOk;
    hide RoomsOk;
    CoreFacts(s);
    var t := HandleHostMute(s, c, target);
    if target.Some? && c.participantId in s.db.rows
       && HostMute(s.db, s.db.rows[c.participantId], target.value).Ok?
    {
      LifecycleProofs.FlagSteps(s.db, target.value, s.db.rows[target.value].flags.(muted := true), s.clock, s.clock);
      DbThenSend(s, t.db, t);
    } else {
      SendingKeeps(s, t);
    }
  }

  lemma HostMuteAllKeeps(s: State, c: Connection)
    requires Core(s)
    ensures Core(HandleHostMuteAll(s, c))
    ensures LifecycleProofs.Calm(s.db, HandleHostMuteAll(s, c).db, s.clock)
  {
    hide LifecycleProofs.Invariant;
    hide LifecycleProofs.Move;
    hide LifecycleProofs.Calm;
    hide Core;
    hide SocketsOk;
    hide RoomsOk;
    CoreFacts(s);
    hide Muted;
    hide Mutable;
    var t := HandleHostMuteAll(s, c);
    if c.participantId in s.db.rows && HostMuteAll(s.db, s.db.rows[c.participantId]).Ok? {
      LifecycleProofs.HostMuteAllSteps(s.db, c.participantId, s.clock, s.clock);
      DbThenSend(s, t.db, t);
    } else {
      SendingKeeps(s, t);
    }
  }

  lemma HostRemoveKeeps(s: State, c: Connection, target: Option<RowId>)
    requires Core(s)
    ensures Core(HandleHostRemove(s, c, target))
    ensures LifecycleProofs.Calm(s.db, HandleHostRemove(s, c, target).db, s.clock)
  {
    hide LifecycleProofs.Invariant;
    hide LifecycleProofs.Move;
    hide LifecycleProofs.Calm;
    hide Core;
    hide SocketsOk;
    hide RoomsOk;
    CoreFacts(s);
    var t := HandleHostRemove(s, c, target);
    if target.Some? && c.participantId in s.db.rows
       && HostRemove(s.db, s.db.rows[c.participantId], target.value, s.clock).Ok?
    {
      LifecycleProofs.CloseSteps(s.db, target.value, s.clock, s.clock);
      var sent := s.(db := t.db, wires := t.wires);
      DbThenSend(s, t.db, sent);
      if Find(s.Room(c.meetingId), target.value).Some? {
        RemovalKeeps(sent, Find(s.Room(c.meetingId), target.value).value);
      }
    } else {
      SendingKeeps(s, t);
    }
  }

  lemma {:induction false} RemovedAllButKeeps(s: State, peers: seq<Connection>, keep: ConnId)
    requires Core(s)
    ensures Core(s.(rooms := RemovedAllBut(s.rooms, peers, keep)))
    decreases |peers|
  {
    hide Core;
    if peers != [] {
      var t := if peers[0].id == keep then s else s.(rooms := Removed(s.rooms, peers[0]));
      RemovalKeeps(s, peers[0]);
      RemovedAllButKeeps(t, peers[1..], keep);
    }
  }

  lemma HostEndKeeps(s: State, c: Connection)
    requires Core(s) && c.id in s.sockets && s.sockets[c.id] == c
    ensures Core(HandleHostEnd(s, c))
    ensures LifecycleProofs.Calm(s.db, HandleHostEnd(s, c).db, s.clock)
  {
    hide LifecycleProofs.Invariant;
    hide LifecycleProofs.Move;
    hide LifecycleProofs.Calm;
    hide Core;
    hide SocketsOk;
    hide RoomsOk;
    CoreFacts(s);
    hide Evicted;
    var t := HandleHostEnd(s, c);
    assert c.participantId in s.db.rows && s.db.rows[c.participantId].meetingId == c.meetingId;
    if HostEnd(s.db, s.db.rows[c.participantId], s.clock).Ok? {
      LifecycleProofs.HostEndSteps(s.db, c.participantId, s.clock, s.clock);
      var sent := s.(db := t.db, wires := t.wires);
      DbThenSend(s, t.db, sent);
      RemovedAllButKeeps(sent, sent.Room(c.meetingId), c.id);
    } else {
      SendingKeeps(s, t);
    }
  }

  lemma HandleKeepsCore(s: State, c: Connection, frame: ClientFrame)
    requires Core(s) && c.id in s.sockets && s.sockets[c.id] == c
    ensures Core(Handle(s, c, frame))
    ensures LifecycleProofs.Calm(s.db, Handle(s, c, frame).db, s.clock)
  {
    hide LifecycleProofs.Calm;
    hide Core;
    hide HandleStateUpdate;
    hide HandleHostMute;
    hide HandleHostMuteAll;
    hide HandleHostRemove;
    hide HandleHostEnd;
    match frame
    case StateUpdate(changes) => StateUpdateKeeps(s, c, changes);
    case HostMuteFrame(target) => HostMuteKeeps(s, c, target);
    case HostMuteAllFrame => HostMuteAllKeeps(s, c);
    case HostRemoveFrame(target) => HostRemoveKeeps(s, c, target);
    case HostEndFrame => HostEndKeeps(s, c);
    case _ => SendingKeeps(s, Handle(s, c, frame));
  }

  function Minted(s: State, step: Step): set<nat> {
    if step.CreateMeeting? || step.JoinMeeting? then {s.next} else {}
  }

  /** Every REST call is a database move. */
  lemma RestMoves(s: State, step: Step)
    requires Core(s)
    requires !step.Tick? && !step.Connect? && !step.Receive? && !step.Teardown?
    ensures LifecycleProofs.Move(s.db, Apply(s, step).db, Minted(s, step), s.clock)
  {
    hide LifecycleProofs.Invariant;
    hide LifecycleProofs.Move;
    hide SocketsOk;
    hide RoomsOk;
    var t := s.clock;
    LifecycleProofs.SkipSteps(s.db, t, t);
    match step {
      case CreateMeeting(host, start) => LifecycleProofs.CreateSteps(s.db, s.next, host, start, t, t);
      case UpdateMeeting(m, user, start) => LifecycleProofs.UpdateSteps(s.db, m, user, start, t, t);
      case CancelMeeting(m, user) => LifecycleProofs.CancelSteps(s.db, m, user, t, t);
      case StartMeeting(m, user) => LifecycleProofs.StartSteps(s.db, m, user, t, t);
      case EndMeeting(m, user) => LifecycleProofs.EndSteps(s.db, m, user, t, t);
      case JoinMeeting(m, user, ok, flags) => LifecycleProofs.JoinSteps(s.db, s.next, m, user, ok, flags, t, t);
      case LeaveMeeting(r) => if r in s.db.rows { LifecycleProofs.CloseSteps(s.db, r, t, t); }
      case RemoveParticipant(r, actor) => if r in s.db.rows { LifecycleProofs.CloseSteps(s.db, r, t, t); }
      case PatchParticipant(r, actor, c) =>
        if r in s.db.rows { LifecycleProofs.FlagSteps(s.db, r, Patched(s.db.rows[r].flags, c), t, t); }
    }
  }

  lemma RestKeeps(s: State, step: Step)
    requires Core(s)
    requires !step.Tick? && !step.Connect? && !step.Receive? && !step.Teardown?
    ensures Core(Apply(s, step)) && LifecycleProofs.Calm(s.db, Apply(s, step).db, s.clock)
  {
    hide LifecycleProofs.Move;
    hide LifecycleProofs.Calm;
    hide Core;
    RestMoves(s, step);
    var t := Apply(s, step);
    DbKeeps(s, t.db, Minted(s, step), t.next);
    assert t == s.(db := t.db, next := t.next);
  }

  lemma TickKeeps(s: State, elapsed: nat)
    requires Core(s)
    ensures Core(s.(clock := s.clock + elapsed))
    ensures LifecycleProofs.Calm(s.db, s.db, s.clock + elapsed)
  {
    hide LifecycleProofs.Step;
    hide LifecycleProofs.Invariant;
    LifecycleProofs.ClockAdvances(s.db, s.clock, s.clock + elapsed);
    LifecycleProofs.SkipSteps(s.db, s.clock, s.clock + elapsed);
  }

  /** Every step keeps the core, and its writes to the tables keep the discipline. */
  lemma ApplyKeepsCore(s: State, step: Step)
    requires Core(s)
    ensures Core(Apply(s, step))
    ensures LifecycleProofs.Step(s.db, Apply(s, step).db, Apply(s, step).clock)
    ensures !step.Connect? ==> LifecycleProofs.Calm(s.db, Apply(s, step).db, Apply(s, step).clock)
  {
    hide Core;
    hide SocketsOk;
    hide RoomsOk;
    hide LifecycleProofs.Invariant;
    hide LifecycleProofs.Step;
    hide LifecycleProofs.BindsNothing;
    hide ConnectSocket;
    hide Handle;
    hide TeardownSocket;
    CoreFacts(s);
    match step
    case Tick(elapsed) => TickKeeps(s, elapsed);
    case Connect(number, session) =>
      ClockHeld(s, step);
      ConnectKeepsCore(s, number, session);
    case Receive(c, frame) =>
      ClockHeld(s, step);
      if c in s.running && c in s.sockets {
        HandleKeepsCore(s, s.sockets[c], frame);
      } else {
        SkipIsCalm(s);
      }
    case Teardown(c) =>
      ClockHeld(s, step);
      if c in s.running && c in s.sockets { TeardownKeepsCore(s, s.sockets[c]); } else { SkipIsCalm(s); }
    case _ => RestKeeps(s, step);
  }

  lemma ClockHeld(s: State, step: Step)
    requires step.Connect? || step.Receive? || step.Teardown?
    ensures Apply(s, step).clock == s.clock
  {
  }

  // --- Bindings --------------------------------------------------------------------------

  /** The tables bind nothing new and sockets, rooms and running set stand. */
  lemma CalmKeepsBindings(s: State, t: State)
    requires BoundOk(s) && LifecycleProofs.BindsNothing(s.db, t.db)
    requires t.rooms == s.rooms && t.sockets == s.sockets && t.running == s.running
    ensures BoundOk(t)
  {
  }

  lemma RemovalKeepsBindings(s: State, c: Connection)
    requires BoundOk(s) && SocketsOk(s) && !Owns(s, c.id)
    ensures BoundOk(s.(rooms := Removed(s.rooms, c)))
  {
    var t := s.(rooms := Removed(s.rooms, c));
    forall r | r in t.db.rows && t.db.rows[r].connectionId.Some?
      ensures var d := t.db.rows[r].connectionId.value;
              d in t.sockets && t.sockets[d] in t.Room(t.sockets[d].meetingId)
    {
      var d := s.db.rows[r].connectionId.value;
      assert s.sockets[d] in s.Room(s.sockets[d].meetingId) && s.sockets[d].id == d && d != c.id;
    }
  }

  lemma AdmissionKeepsBindings(s: State, c: Connection, p: Participant)
    requires Invariant(s) && c == Connection(s.next, p.id, p.meetingId)
    requires p.id in s.db.rows && s.db.rows[p.id] == p && p.leftAt.None?
    ensures BoundOk(Admitted(s, c, p))
  {
    hide LifecycleProofs.Invariant;
    var t := Admitted(s, c, p);
    forall r | r in t.db.rows && t.db.rows[r].connectionId.Some?
      ensures var d := t.db.rows[r].connectionId.value;
              && t.db.rows[r].leftAt.None?
              && d in t.running && d in t.sockets && t.sockets[d].participantId == r
              && t.sockets[d] in t.Room(t.sockets[d].meetingId)
              && forall e :: e in t.sockets && t.sockets[e].participantId == r ==> e <= d
    {
      if r != p.id {
        assert s.db.rows[r].connectionId == t.db.rows[r].connectionId;
      }
    }
  }

  lemma ConnectKeeps(s: State, number: MeetingId, session: RowId)
    requires Invariant(s)
    ensures Invariant(ConnectSocket(s, number, session))
    ensures LifecycleProofs.Step(s.db, ConnectSocket(s, number, session).db, s.clock)
  {
    hide LifecycleProofs.Invariant;
    hide LifecycleProofs.Step;
    hide Core;
    hide BoundOk;
    hide SocketsOk;
    hide RoomsOk;
    InvariantFacts(s);
    ConnectKeepsCore(s, number, session);
    var a := Authenticate(s.db, number, session);
    if a.Ok? {
      var c := Connection(s.next, a.value.id, a.value.meetingId);
      AdmissionKeepsBindings(s, c, a.value);
      BindingsAreUnsent(s, ConnectSocket(s, number, session));
      BindingsAreUnsent(Admitted(s, c, a.value), ConnectSocket(s, number, session));
    }
  }

  /** Logs and ids do not count. */
  lemma BindingsAreUnsent(s: State, t: State)
    requires BoundOk(s)
    ensures s.db == t.db && s.rooms == t.rooms && s.sockets == t.sockets && s.running == t.running ==> BoundOk(t)
  {
  }

  /** A socket that owns no row leaves the registry and its handler finishes. */
  lemma UnregisteringKeepsBindings(s: State, c: Connection, t: State)
    requires BoundOk(s) && SocketsOk(s) && !Owns(s, c.id)
    requires t.db == s.db && t.sockets == s.sockets
    requires t.rooms == Removed(s.rooms, c) && t.running == s.running - {c.id}
    ensures BoundOk(t)
  {
    RemovalKeepsBindings(s, c);
  }

  lemma TeardownKeeps(s: State, c: Connection)
    requires Invariant(s) && c.id in s.sockets && s.sockets[c.id] == c
    ensures Invariant(TeardownSocket(s, c))
    ensures LifecycleProofs.Calm(s.db, TeardownSocket(s, c).db, s.clock)
  {
    hide LifecycleProofs.Invariant;
    hide LifecycleProofs.Move;
    hide LifecycleProofs.Step;
    hide LifecycleProofs.BindsNothing;
    hide Core;
    hide BoundOk;
    hide RoomsOk;
    InvariantFacts(s);
    TeardownKeepsCore(s, c);
    var t := TeardownSocket(s, c);
    CalmKeepsBindings(s, s.(db := t.db));
    CoreFacts(t);
    UnregisteringKeepsBindings(s.(db := t.db), c, t);
  }

  lemma HostRemoveKeepsBindings(s: State, c: Connection, target: Option<RowId>)
    requires Invariant(s)
    ensures BoundOk(HandleHostRemove(s, c, target))
  {
    hide LifecycleProofs.Invariant;
    hide LifecycleProofs.Step;
    hide LifecycleProofs.BindsNothing;
    hide Core;
    hide BoundOk;
    hide RoomsOk;
    InvariantFacts(s);
    HostRemoveKeeps(s, c, target);
    var t := HandleHostRemove(s, c, target);
    CoreFacts(t);
    var moved := s.(db := t.db);
    CalmKeepsBindings(s, moved);
    BindingsAreUnsent(moved, t);
    if target.Some? && c.participantId in s.db.rows
       && HostRemove(s.db, s.db.rows[c.participantId], target.value, s.clock).Ok?
       && Find(s.Room(c.meetingId), target.value).Some?
    {
      var found := Find(s.Room(c.meetingId), target.value).value;
      RemovalKeepsBindings(moved, found);
      BindingsAreUnsent(moved.(rooms := Removed(s.rooms, found)), t);
    }
  }

  lemma {:induction false} RemovedAllButKeepsBindings(s: State, peers: seq<Connection>, keep: ConnId)
    requires BoundOk(s) && SocketsOk(s) && forall p :: p in peers ==> !Owns(s, p.id)
    ensures BoundOk(s.(rooms := RemovedAllBut(s.rooms, peers, keep)))
    decreases |peers|
  {
    hide BoundOk;
    if peers != [] {
      var t := if peers[0].id == keep then s else s.(rooms := Removed(s.rooms, peers[0]));
      RemovalKeepsBindings(s, peers[0]);
      RemovedAllButKeepsBindings(t, peers[1..], keep);
    }
  }

  lemma NobodyOwnsAfterEnd(s: State, m: MeetingId, p: Connection)
    requires Invariant(s) && m in s.db.meetings && s.db.meetings[m].status == Ended
    requires p in s.Room(m)
    ensures !Owns(s, p.id)
  {
    assert LifecycleProofs.RowOk(s.db, s.db.rows[p.participantId], s.clock);
  }

  lemma HostEndKeepsBindings(s: State, c: Connection)
    requires Invariant(s) && c.id in s.sockets && s.sockets[c.id] == c
    ensures BoundOk(HandleHostEnd(s, c))
  {
    hide LifecycleProofs.Invariant;
    hide LifecycleProofs.Move;
    hide LifecycleProofs.Calm;
    hide Core;
    hide BoundOk;
    hide RoomsOk;
    hide Owns;
    hide Evicted;
    InvariantFacts(s);
    BindingsAreUnsent(s, HandleHostEnd(s, c));
    if c.participantId in s.db.rows && HostEnd(s.db, s.db.rows[c.participantId], s.clock).Ok? {
      LifecycleProofs.HostEndSteps(s.db, c.participantId, s.clock, s.clock);
      var moved := s.(db := HandleHostEnd(s, c).db);
      DbThenSend(s, moved.db, moved);
      MovesBindNothing(s.db, moved.db, s.clock);
      CalmKeepsBindings(s, moved);
      CoreFacts(moved);
      forall p | p in moved.Room(c.meetingId) ensures !Owns(moved, p.id) {
        NobodyOwnsAfterEnd(moved, c.meetingId, p);
      }
      RemovedAllButKeepsBindings(moved, moved.Room(c.meetingId), c.id);
      BindingsAreUnsent(moved.(rooms := RemovedAllBut(moved.rooms, moved.Room(c.meetingId), c.id)),
                        HandleHostEnd(s, c));
    }
  }

  lemma MovesBindNothing(a: Db, b: Db, now: int)
    requires LifecycleProofs.Move(a, b, {}, now)
    ensures LifecycleProofs.BindsNothing(a, b)
  {
  }

  /** Only a removal and the end of a meeting touch the registry. */
  lemma HandlersLeaveRegistry(s: State, c: Connection, frame: ClientFrame)
    requires !frame.HostRemoveFrame? && !frame.HostEndFrame?
    ensures var t := Handle(s, c, frame); t.rooms == s.rooms && t.sockets == s.sockets && t.running == s.running
  {
    hide Delivered;
    hide Muted;
    hide Ascending;
  }

  lemma HandleKeeps(s: State, c: Connection, frame: ClientFrame)
    requires Invariant(s) && c.id in s.sockets && s.sockets[c.id] == c
    ensures Invariant(Handle(s, c, frame))
    ensures LifecycleProofs.Calm(s.db, Handle(s, c, frame).db, s.clock)
  {
    hide LifecycleProofs.Step;
    hide LifecycleProofs.BindsNothing;
    hide Core;
    hide BoundOk;
    hide HandleStateUpdate;
    hide HandleHostMute;
    hide HandleHostMuteAll;
    hide HandleHostRemove;
    hide HandleHostEnd;
    HandleKeepsCore(s, c, frame);
    match frame
    case HostRemoveFrame(target) => HostRemoveKeepsBindings(s, c, target);
    case HostEndFrame => HostEndKeepsBindings(s, c);
    case _ =>
      HandlersLeaveRegistry(s, c, frame);
      CalmKeepsBindings(s, Handle(s, c, frame));
  }

  /** REST calls and the clock touch neither sockets nor registry. */
  lemma RestLeavesRegistry(s: State, step: Step)
    requires !step.Connect? && !step.Receive? && !step.Teardown?
    ensures var t := Apply(s, step); t.rooms == s.rooms && t.sockets == s.sockets && t.running == s.running
  {
    hide Evicted;
  }

  /** Every step keeps the invariant, and its writes to the tables keep the discipline. */
  lemma ApplyKeeps(s: State, step: Step)
    requires Invariant(s)
    ensures Invariant(Apply(s, step))
    ensures LifecycleProofs.Step(s.db, Apply(s, step).db, Apply(s, step).clock)
    ensures !step.Connect? ==> LifecycleProofs.Calm(s.db, Apply(s, step).db, Apply(s, step).clock)
  {
    hide Core;
    hide BoundOk;
    hide SocketsOk;
    hide LifecycleProofs.Step;
    hide LifecycleProofs.BindsNothing;
    hide ConnectSocket;
    hide Handle;
    hide TeardownSocket;
    ApplyKeepsCore(s, step);
    match step
    case Connect(number, session) => ConnectKeeps(s, number, session);
    case Receive(c, frame) =>
      if c in s.running && c in s.sockets { SocketIds(s, c); HandleKeeps(s, s.sockets[c], frame); }
    case Teardown(c) =>
      if c in s.running && c in s.sockets { SocketIds(s, c); TeardownKeeps(s, s.sockets[c]); }
    case _ =>
      RestLeavesRegistry(s, step);
      CalmKeepsBindings(s, Apply(s, step));
  }

  lemma SocketIds(s: State, c: ConnId)
    requires Core(s) && c in s.sockets
    ensures s.sockets[c].id == c
  {
  }

  /** Every reachable state satisfies the invariant. */
  lemma {:induction false} Reachable(steps: seq<Step>)
    ensures Invariant(Exec(INIT, steps))
  {
    if steps == [] {
    } else {
      Reachable(steps[..|steps| - 1]);
      ApplyKeeps(Exec(INIT, steps[..|steps| - 1]), steps[|steps| - 1]);
    }
  }
}
