// Server and clients together: at rest, every client still in the room holds the roster the
// tables hold, its own entry included.

module Replica {
  import opened Model
  import opened Lifecycle
  import LifecycleProofs
  import opened Protocol
  import opened Registry
  import opened Server
  import opened ServerProofs
  import opened Guarantees
  import opened Isolation
  import opened Introductions
  import opened Roster
  import opened MeetingStore
  import opened MeetingRoom

  /** A client on its socket: how much of the socket's log it has handled. */
  datatype Seat = Seat(client: Client, read: nat)

  datatype System = System(server: State, seats: map<ConnId, Seat>)

  const START: System := System(INIT, map[])

  /**
   * `arriving` is the client behind a new socket, with whatever roster, queue and peers an earlier
   * socket left it. Frames reach the server through `Forward` alone.
   */
  datatype Move =
    | Serve(step: Step, arriving: Client)
    | Read(c: ConnId)
    | Forward(c: ConnId)
    | UserDoes(c: ConnId, action: Action)

  function ApplyMove(y: System, move: Move): System {
    match move
    case Serve(step, arriving) =>
      if step.Receive? then y
      else
        var t := Apply(y.server, step);
        var c := y.server.next;
        System(t, if c in t.sockets && c !in y.seats then y.seats[c := Seat(arriving.(left := false), 0)] else y.seats)
    case Read(c) =>
      if c in y.seats && c in y.server.wires && y.seats[c].read < |y.server.wires[c]|
      then
        var seat := y.seats[c];
        y.(seats := y.seats[c := Seat(Dispatch(seat.client, y.server.wires[c][seat.read]), seat.read + 1)])
      else y
    case Forward(c) =>
      if c in y.seats && y.seats[c].client.outbox != []
      then
        var client := y.seats[c].client;
        System(Apply(y.server, Receive(c, client.outbox[0])),
               y.seats[c := y.seats[c].(client := client.(outbox := client.outbox[1..]))])
      else y
    case UserDoes(c, action) =>
      if c in y.seats then y.(seats := y.seats[c := y.seats[c].(client := Act(y.seats[c].client, action))])
      else y
  }

  function Play(moves: seq<Move>): System {
    if moves == [] then START else ApplyMove(Play(moves[..|moves| - 1]), moves[|moves| - 1])
  }

  /** Rows close and flags change through the socket only. */
  predicate Allowed(move: Move) {
    move.Serve? ==> ThroughTheSocket(move.step)
  }

  // --- Nearly the same roster -------------------------------------------------------------------

  /** The same, but for the flags of the listener's own entry. */
  ghost predicate Near(h: Heard, k: Heard, self: RowId) {
    if h.left || k.left then h == k
    else
      && h.roster.Keys == k.roster.Keys
      && forall r :: r in h.roster ==>
           if r == self then h.roster[r].(flags := k.roster[r].flags) == k.roster[r] else h.roster[r] == k.roster[r]
  }

  lemma {:induction false} NearHearsAll(h: Heard, k: Heard, self: RowId, frames: seq<ServerFrame>)
    requires Near(h, k, self)
    ensures Near(HearAll(h, frames), HearAll(k, frames), self)
  {
    if frames != [] {
      var n := |frames| - 1;
      NearHearsAll(h, k, self, frames[..n]);
    }
  }

  lemma {:induction false} HearInTwoParts(h: Heard, a: seq<ServerFrame>, b: seq<ServerFrame>)
    ensures HearAll(h, a + b) == HearAll(HearAll(h, a), b)
  {
    if b == [] {
      assert a + b == a;
    } else {
      var n := |b| - 1;
      assert (a + b)[..|a + b| - 1] == a + b[..n];
      HearInTwoParts(h, a, b[..n]);
    }
  }

  lemma {:induction false} HearFirst(h: Heard, f: ServerFrame, rest: seq<ServerFrame>)
    ensures HearAll(h, [f] + rest) == HearAll(Hear(h, f), rest)
  {
    HearInTwoParts(h, [f], rest);
    assert [f][..0] == [];
    assert HearAll(h, [f]) == Hear(HearAll(h, []), f);
  }

  // --- The invariant --------------------------------------------------------------------------------

  function AsHeard(c: Client): Heard {
    Heard(c.left, c.store.participants)
  }

  /** A report of the client's own flags is on its way to the server. */
  predicate Pending(outbox: seq<ClientFrame>) {
    exists i :: 0 <= i < |outbox| && outbox[i].StateUpdate?
  }

  /** Handling the rest of the log would bring the client to what the whole log says. */
  ghost predicate Tracks(c: Client, wire: seq<ServerFrame>, read: nat, self: RowId) {
    && read <= |wire|
    && (read > 0 ==> c.selfId == Some(self))
    && var ahead := HearAll(AsHeard(c), wire[read..]);
    && Near(ahead, Log(wire), self)
    && (!Pending(c.outbox) ==> ahead == Log(wire))
  }

  predicate Registered(s: State, c: ConnId) {
    c in s.sockets && s.sockets[c] in s.Room(s.sockets[c].meetingId)
  }

  ghost predicate SeatOk(s: State, c: ConnId, seat: Seat) {
    && c in s.wires && c in s.sockets
    && (Registered(s, c) && !seat.client.left ==>
          Tracks(seat.client, s.wires[c], seat.read, s.sockets[c].participantId))
  }

  ghost predicate SeatsOk(y: System) {
    && y.seats.Keys == y.server.sockets.Keys
    && forall c :: c in y.seats ==> SeatOk(y.server, c, y.seats[c])
  }

  // --- The client's moves --------------------------------------------------------------------------

  /** The first frame resets the roster, so nothing carried over from an earlier socket matters. */
  lemma {:induction false} SnapshotResets(h: Heard, wire: seq<ServerFrame>)
    requires !h.left && wire != [] && wire[0].RoomState?
    ensures HearAll(h, wire) == Log(wire)
  {
    assert wire == [wire[0]] + wire[1..];
    HearFirst(h, wire[0], wire[1..]);
    HearFirst(Heard(false, map[]), wire[0], wire[1..]);
  }

  lemma FreshSeatTracks(c: Client, wire: seq<ServerFrame>, self: RowId)
    requires !c.left && SnapshotFirst(wire, self)
    ensures Tracks(c, wire, 0, self)
  {
    assert wire[0..] == wire;
    SnapshotResets(AsHeard(c), wire);
  }

  /** Handling a frame is hearing it, but for the client's own report of itself on a snapshot. */
  lemma DispatchHears(c: Client, f: ServerFrame, self: RowId)
    requires !c.left && (f.RoomState? ==> f.you.id == self)
    ensures Near(AsHeard(Dispatch(c, f)), Hear(AsHeard(c), f), self)
    ensures !f.RoomState? ==> AsHeard(Dispatch(c, f)) == Hear(AsHeard(c), f)
    ensures f.RoomState? ==> Pending(Dispatch(c, f).outbox) && Dispatch(c, f).selfId == Some(self)
    ensures Pending(c.outbox) ==> Pending(Dispatch(c, f).outbox)
    ensures !f.RoomState? ==> Dispatch(c, f).selfId == c.selfId
  {
    if f.RoomState? {
      var d := Dispatch(c, f);
      assert d.outbox[|c.outbox|].StateUpdate?;
    }
    if i :| 0 <= i < |c.outbox| && c.outbox[i].StateUpdate? {
      assert Dispatch(c, f).outbox[i] == c.outbox[i];
    }
  }

  lemma ReadTracks(c: Client, wire: seq<ServerFrame>, read: nat, self: RowId)
    requires !c.left && SnapshotFirst(wire, self) && read < |wire| && Tracks(c, wire, read, self)
    requires !Dispatch(c, wire[read]).left
    ensures Tracks(Dispatch(c, wire[read]), wire, read + 1, self)
  {
    var f := wire[read];
    var d := Dispatch(c, f);
    DispatchHears(c, f, self);
    assert wire[read..] == [f] + wire[read + 1..];
    HearFirst(AsHeard(c), f, wire[read + 1..]);
    NearHearsAll(AsHeard(d), Hear(AsHeard(c), f), self, wire[read + 1..]);
  }

  /** The user may touch this client's own entry only, and reports it when doing so. */
  lemma ActIsReported(c: Client, a: Action, self: RowId)
    requires !c.left && !Act(c, a).left && (c.selfId.Some? ==> c.selfId == Some(self))
    ensures Near(AsHeard(Act(c, a)), AsHeard(c), self)
    ensures !Pending(Act(c, a).outbox) ==> !Pending(c.outbox) && AsHeard(Act(c, a)) == AsHeard(c)
    ensures Act(c, a).selfId == c.selfId
  {
    var d := Act(c, a);
    assert |d.outbox| > |c.outbox|;
    if i :| 0 <= i < |c.outbox| && c.outbox[i].StateUpdate? {
      assert d.outbox[i] == c.outbox[i];
    }
    if a.ToggleVideo? || a.ToggleMute? {
      assert d.outbox[|c.outbox|].StateUpdate?;
    }
  }

  lemma ActTracks(c: Client, a: Action, wire: seq<ServerFrame>, read: nat, self: RowId)
    requires !c.left && !Act(c, a).left && SnapshotFirst(wire, self) && Tracks(c, wire, read, self)
    ensures Tracks(Act(c, a), wire, read, self)
  {
    if read == 0 {
      FreshSeatTracks(Act(c, a), wire, self);
    } else {
      ActIsReported(c, a, self);
      NearHearsAll(AsHeard(Act(c, a)), AsHeard(c), self, wire[read..]);
    }
  }

  // --- The server's moves -----------------------------------------------------------------------------

  lemma GrowthTracks(c: Client, wire: seq<ServerFrame>, more: seq<ServerFrame>, read: nat, self: RowId)
    requires Tracks(c, wire, read, self)
    ensures Tracks(c, wire + more, read, self)
  {
    assert (wire + more)[read..] == wire[read..] + more;
    HearInTwoParts(AsHeard(c), wire[read..], more);
    HearInTwoParts(Heard(false, map[]), wire, more);
    NearHearsAll(HearAll(AsHeard(c), wire[read..]), Log(wire), self, more);
  }

  /** The report reached the server and its news is in the log: the difference is settled. */
  lemma ReportTracks(c: Client, wire: seq<ServerFrame>, read: nat, self: RowId, flags: Flags)
    requires Tracks(c, wire, read, self) && c.outbox != []
    ensures Tracks(c.(outbox := c.outbox[1..]), wire + [PeerUpdated(self, flags)], read, self)
  {
    var f := PeerUpdated(self, flags);
    assert (wire + [f])[read..] == wire[read..] + [f];
    assert (wire[read..] + [f])[..|wire[read..]|] == wire[read..];
  }

  /** Anything but a report leaves the difference as it was. */
  lemma SentTracks(c: Client, wire: seq<ServerFrame>, more: seq<ServerFrame>, read: nat, self: RowId)
    requires Tracks(c, wire, read, self) && c.outbox != [] && !c.outbox[0].StateUpdate?
    ensures Tracks(c.(outbox := c.outbox[1..]), wire + more, read, self)
  {
    GrowthTracks(c, wire, more, read, self);
    if i :| 0 <= i < |c.outbox| && c.outbox[i].StateUpdate? {
      assert c.outbox[1..][i - 1].StateUpdate?;
    }
  }

  // --- Registration only ever ends ----------------------------------------------------------------

  /** What every step leaves of the sockets already there. */
  ghost predicate Carried(s: State, t: State) {
    forall c :: c in s.sockets ==>
      && c in t.sockets && t.sockets[c] == s.sockets[c]
      && c in s.wires && c in t.wires && s.wires[c] <= t.wires[c]
      && (Registered(t, c) ==> Registered(s, c))
  }

  ghost predicate Fewer(before: Rooms, after: Rooms) {
    forall m, d :: d in RoomOf(after, m) ==> d in RoomOf(before, m)
  }

  lemma FrameRegistersNobody(s: State, c: Connection, frame: ClientFrame)
    ensures Fewer(s.rooms, Handle(s, c, frame).rooms)
  {
    hide Delivered;
    match frame {
      case HostRemoveFrame(target) =>
        if target.Some? {
          var found := Find(s.Room(c.meetingId), target.value);
        }
      case HostEndFrame => RemovedAllButIsFewer(s.rooms, s.Room(c.meetingId), c.id);
      case _ =>
    }
  }

  lemma StepRegistersNobody(s: State, step: Step)
    requires !step.Connect?
    ensures Fewer(s.rooms, Apply(s, step).rooms)
  {
    hide Handle;
    hide Delivered;
    match step {
      case Receive(c, frame) => if c in s.running && c in s.sockets { FrameRegistersNobody(s, s.sockets[c], frame); }
      case Teardown(c) =>
      case _ =>
    }
  }

  lemma ConnectRegistersOne(s: State, number: MeetingId, session: RowId)
    requires Invariant(s)
    ensures forall m, d :: d in ConnectSocket(s, number, session).Room(m) ==> d in s.Room(m) || d.id == s.next
  {
    hide LifecycleProofs.Invariant;
    hide Delivered;
    hide ActiveRoster;
  }

  lemma PlainStepCarries(s: State, t: State)
    requires PlainStep(s, t) && SocketsOk(s) && Fewer(s.rooms, t.rooms)
    ensures Carried(s, t) && t.sockets == s.sockets
  {
    forall c | c in s.sockets && Registered(t, c) ensures Registered(s, c) {
      assert t.sockets[c] in RoomOf(t.rooms, t.sockets[c].meetingId);
    }
  }

  lemma AdmissionCarries(s: State, t: State, p: Participant)
    requires Admission(s, t, p) && SocketsOk(s)
    requires forall m, d :: d in t.Room(m) ==> d in s.Room(m) || d.id == s.next
    ensures Carried(s, t) && t.sockets.Keys == s.sockets.Keys + {s.next}
  {
    hide ActiveRoster;
  }

  lemma StepCarries(s: State, step: Step)
    requires Invariant(s)
    ensures var t := Apply(s, step);
            && Carried(s, t)
            && t.sockets.Keys == s.sockets.Keys + (if s.next in t.sockets then {s.next} else {})
  {
    hide Apply;
    hide ConnectSocket;
    hide PlainStep;
    hide Admission;
    hide Fewer;
    hide LifecycleProofs.Invariant;
    hide BoundOk;

    if step.Connect? {
      ConnectApplied(s, step);
      ConnectAdmits(s, step.number, step.session);
      ConnectRegistersOne(s, step.number, step.session);
      if s.next in ConnectSocket(s, step.number, step.session).sockets {
        AdmissionCarries(s, ConnectSocket(s, step.number, step.session), s.db.rows[step.session]);
      }
    } else {
      StepIsPlain(s, step);
      StepRegistersNobody(s, step);
      PlainStepCarries(s, Apply(s, step));
    }
  }

  // --- Every move keeps every seat -----------------------------------------------------------------

  ghost predicate SystemOk(y: System) {
    Invariant(y.server) && AllAgree(y.server) && Mannered(y.server) && SeatsOk(y)
  }

  /** A seat nobody touched is as good after the server's step as before. */
  lemma SeatCarried(s: State, t: State, c: ConnId, seat: Seat)
    requires Carried(s, t) && c in s.sockets && SeatOk(s, c, seat)
    ensures SeatOk(t, c, seat)
  {
    hide Tracks;
    if Registered(t, c) && !seat.client.left {
      var more := t.wires[c][|s.wires[c]|..];
      assert t.wires[c] == s.wires[c] + more;
      GrowthTracks(seat.client, s.wires[c], more, seat.read, s.sockets[c].participantId);
    }
  }

  lemma ServeKeepsSeats(y: System, step: Step, arriving: Client)
    requires SystemOk(y) && !step.Receive? && ShapesOk(Apply(y.server, step))
    ensures SeatsOk(ApplyMove(y, Serve(step, arriving)))
  {
    hide Apply;
    hide Invariant;
    hide AllAgree;
    hide Mannered;
    hide Carried;
    hide SeatOk;
    var s, t := y.server, Apply(y.server, step);
    var z := ApplyMove(y, Serve(step, arriving));
    StepCarries(s, step);
    forall c | c in z.seats ensures SeatOk(t, c, z.seats[c]) {
      if c in y.seats {
        SeatCarried(s, t, c, y.seats[c]);
      } else {
        NewSeatOk(t, c, arriving);
      }
    }
  }

  lemma NewSeatOk(t: State, c: ConnId, arriving: Client)
    requires ShapesOk(t) && c in t.sockets
    ensures SeatOk(t, c, Seat(arriving.(left := false), 0))
  {
    FreshSeatTracks(arriving.(left := false), t.wires[c], t.sockets[c].participantId);
  }

  lemma ReadKeepsSeat(s: State, c: ConnId, seat: Seat)
    requires ShapesOk(s) && c in s.sockets && SeatOk(s, c, seat) && seat.read < |s.wires[c]|
    ensures SeatOk(s, c, Seat(Dispatch(seat.client, s.wires[c][seat.read]), seat.read + 1))
  {
    hide Tracks;
    var d := Dispatch(seat.client, s.wires[c][seat.read]);
    if Registered(s, c) && !d.left {
      ReadTracks(seat.client, s.wires[c], seat.read, s.sockets[c].participantId);
    }
  }

  lemma ActKeepsSeat(s: State, c: ConnId, seat: Seat, action: Action)
    requires ShapesOk(s) && c in s.sockets && SeatOk(s, c, seat)
    ensures SeatOk(s, c, seat.(client := Act(seat.client, action)))
  {
    hide Tracks;
    if Registered(s, c) && !Act(seat.client, action).left {
      ActTracks(seat.client, action, s.wires[c], seat.read, s.sockets[c].participantId);
    }
  }

  /** A registered socket's report comes back to it as news of its own row. */
  lemma ReportComesBack(s: State, c: ConnId, changes: Changes)
    requires Invariant(s) && Registered(s, c)
    ensures var t := Apply(s, Receive(c, StateUpdate(changes)));
            var p := s.sockets[c].participantId;
            && p in t.db.rows && c in s.wires && c in t.wires
            && t.wires[c] == s.wires[c] + [PeerUpdated(p, t.db.rows[p].flags)]
  {
    hide LifecycleProofs.Invariant;
    hide BoundOk;
    assert s.sockets[c].id == c;
    assert c in Recipients(s.Room(s.sockets[c].meetingId), None);
  }

  lemma ForwardKeepsSeat(s: State, c: ConnId, seat: Seat)
    requires Invariant(s) && c in s.sockets && SeatOk(s, c, seat) && seat.client.outbox != []
    ensures SeatOk(Apply(s, Receive(c, seat.client.outbox[0])), c,
                   seat.(client := seat.client.(outbox := seat.client.outbox[1..])))
  {
    hide Tracks;
    hide Apply;
    hide Invariant;
    hide Registered;
    var frame := seat.client.outbox[0];
    var t := Apply(s, Receive(c, frame));
    StepCarries(s, Receive(c, frame));
    if Registered(t, c) && !seat.client.left {
      var p := s.sockets[c].participantId;
      if frame.StateUpdate? {
        ReportComesBack(s, c, frame.changes);
        ReportTracks(seat.client, s.wires[c], seat.read, p, t.db.rows[p].flags);
      } else {
        var more := t.wires[c][|s.wires[c]|..];
        assert t.wires[c] == s.wires[c] + more;
        SentTracks(seat.client, s.wires[c], more, seat.read, p);
      }
    }
  }

  lemma ForwardKeepsSeats(y: System, c: ConnId)
    requires SystemOk(y)
    ensures SeatsOk(ApplyMove(y, Forward(c)))
  {
    hide Apply;
    hide Invariant;
    hide AllAgree;
    hide Mannered;
    hide Carried;
    hide SeatOk;
    if c in y.seats && y.seats[c].client.outbox != [] {
      var step := Receive(c, y.seats[c].client.outbox[0]);
      var t := Apply(y.server, step);
      var z := ApplyMove(y, Forward(c));
      StepCarries(y.server, step);
      FrameAdmitsNobody(y.server, step);
      ForwardKeepsSeat(y.server, c, y.seats[c]);
      forall d | d in z.seats ensures SeatOk(t, d, z.seats[d]) {
        if d != c { SeatCarried(y.server, t, d, y.seats[d]); }
      }
    }
  }

  lemma FrameAdmitsNobody(s: State, step: Step)
    requires Invariant(s) && step.Receive?
    ensures Apply(s, step).sockets == s.sockets
  {
    hide Apply;
    hide Invariant;
    StepAddsAtMostOneRow(s, step);
  }

  lemma ReadKeepsSeats(y: System, c: ConnId)
    requires SystemOk(y)
    ensures SeatsOk(ApplyMove(y, Read(c)))
  {
    hide Invariant;
    hide AllAgree;
    hide SeatOk;
    if c in y.seats && c in y.server.wires && y.seats[c].read < |y.server.wires[c]| {
      ReadKeepsSeat(y.server, c, y.seats[c]);
    }
  }

  lemma ActKeepsSeats(y: System, c: ConnId, action: Action)
    requires SystemOk(y)
    ensures SeatsOk(ApplyMove(y, UserDoes(c, action)))
  {
    hide Invariant;
    hide AllAgree;
    hide SeatOk;
    if c in y.seats {
      ActKeepsSeat(y.server, c, y.seats[c], action);
    }
  }

  /** What the server has agreed to, it keeps agreeing to. */
  lemma ServerKeeps(s: State, step: Step)
    requires Invariant(s) && AllAgree(s) && Mannered(s) && ThroughTheSocket(step)
    ensures var t := Apply(s, step); Invariant(t) && AllAgree(t) && Mannered(t) && ShapesOk(t)
  {
    hide Invariant;
    hide AllAgree;
    hide Apply;
    ApplyKeeps(s, step);
    ApplyAgrees(s, step);
    StepKeepsManners(s, step);
  }

  lemma MoveKeeps(y: System, move: Move)
    requires SystemOk(y) && Allowed(move)
    ensures SystemOk(ApplyMove(y, move))
  {
    hide Invariant;
    hide AllAgree;
    hide Mannered;
    hide SeatsOk;
    hide Apply;
    match move {
      case Serve(step, arriving) =>
        if !step.Receive? {
          ServerKeeps(y.server, step);
          ServeKeepsSeats(y, step, arriving);
        }
      case Read(c) => ReadKeepsSeats(y, c);
      case Forward(c) =>
        if c in y.seats && y.seats[c].client.outbox != [] {
          ServerKeeps(y.server, Receive(c, y.seats[c].client.outbox[0]));
        }
        ForwardKeepsSeats(y, c);
      case UserDoes(c, action) => ActKeepsSeats(y, c, action);
    }
  }

  lemma {:induction false} EveryPlayIsOk(moves: seq<Move>)
    requires forall i :: 0 <= i < |moves| ==> Allowed(moves[i])
    ensures SystemOk(Play(moves))
  {
    hide ApplyMove;
    if moves == [] {
    } else {
      var n := |moves| - 1;
      EveryPlayIsOk(moves[..n]);
      MoveKeeps(Play(moves[..n]), moves[n]);
    }
  }

  /**
   * Replica agreement. Once a client still in the room has handled every frame sent to it and has no
   * report of its own flags on its way, its roster holds every present row of its meeting that has
   * connected, only present rows of its meeting, and each of them word for word as the tables do.
   * What other clients have yet to read or send does not matter.
   */
  lemma {:induction false} AtRestTheReplicaIsTheTable(moves: seq<Move>, c: ConnId)
    requires forall i :: 0 <= i < |moves| ==> Allowed(moves[i])
    requires c in Play(moves).seats && Registered(Play(moves).server, c)
    requires var seat := Play(moves).seats[c];
             !seat.client.left && !Pending(seat.client.outbox) && c in Play(moves).server.wires
             && seat.read == |Play(moves).server.wires[c]|
    ensures var s, roster := Play(moves).server, Play(moves).seats[c].client.store.participants;
            var m := s.sockets[c].meetingId;
            && (forall r :: r in Connected(s) && Present(s.db, m, r) ==> r in roster)
            && (forall r :: r in roster ==> Present(s.db, m, r) && roster[r] == Serialize(s.db.rows[r]))
  {
    hide Invariant;
    hide Mannered;
    hide Play;
    EveryPlayIsOk(moves);
    var y := Play(moves);
    var wire := y.server.wires[c];
    assert SeatOk(y.server, c, y.seats[c]);
    assert wire[|wire|..] == [];
    assert y.server.sockets[c] in RoomOf(y.server.rooms, y.server.sockets[c].meetingId);
    assert Agrees(y.server.db, y.server.sockets[c].meetingId, Connected(y.server), Log(wire)) by {
      SocketKnowsItself(y.server, c);
    }
  }

  /** Field by field: the client shows of each row the user, role, flags and stamps the tables hold. */
  lemma {:induction false} AtRestEveryFieldIsTheRows(moves: seq<Move>, c: ConnId, r: RowId)
    requires forall i :: 0 <= i < |moves| ==> Allowed(moves[i])
    requires c in Play(moves).seats && Registered(Play(moves).server, c)
    requires var seat := Play(moves).seats[c];
             && !seat.client.left && !Pending(seat.client.outbox) && c in Play(moves).server.wires
             && seat.read == |Play(moves).server.wires[c]| && r in seat.client.store.participants
    ensures r in Play(moves).server.db.rows
    ensures var row, shown := Play(moves).server.db.rows[r], Play(moves).seats[c].client.store.participants[r];
            && shown.id == r == row.id && shown.meetingId == row.meetingId == Play(moves).server.sockets[c].meetingId
            && shown.userId == row.userId && shown.role == row.role && shown.joinedAt == row.joinedAt
            && shown.leftAt.None? && row.leftAt.None?
            && shown.flags.muted == row.flags.muted && shown.flags.videoOn == row.flags.videoOn
            && shown.flags.handRaised == row.flags.handRaised
  {
    hide Play;
    AtRestTheReplicaIsTheTable(moves, c);
    EveryPlayIsOk(moves);
    hide Mannered;
    RowsKnowThemselves(Play(moves).server);
    hide Invariant;
  }

  lemma RowsKnowThemselves(s: State)
    requires Invariant(s)
    ensures forall r :: r in s.db.rows ==> s.db.rows[r].id == r
  {
  }

  lemma SocketKnowsItself(s: State, c: ConnId)
    requires Invariant(s) && c in s.sockets
    ensures s.sockets[c].id == c
  {
  }

  // --- What a reconnect does to a mute -----------------------------------------------------------

  /** The report that follows a snapshot puts the client's media in its row, whatever the host had set there. */
  lemma ReportOverridesTheRow(s: State, c: ConnId, media: Media)
    requires Invariant(s) && c in s.running
    ensures c in s.sockets
    ensures var t, p := Apply(s, Receive(c, StateUpdate(Reported(media)))), s.sockets[c].participantId;
            && p in s.db.rows
            && t.db.rows == s.db.rows[p :=
                s.db.rows[p].(flags := s.db.rows[p].flags.(muted := media.isMuted, videoOn := media.isVideoOn))]
  {
    hide LifecycleProofs.Invariant;
    hide BoundOk;
    hide RoomsOk;
    hide Delivered;
    InvariantFacts(s);
  }
}
