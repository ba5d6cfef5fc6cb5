// The order in which a socket learns of the others: its snapshot first, then each arrival
// before anything the arrival says. This is what decides who makes the offer.

module Introductions {
  import opened Model
  import opened Lifecycle
  import LifecycleProofs
  import opened Protocol
  import opened Registry
  import opened Server
  import opened ServerProofs
  import opened Guarantees
  import opened Isolation
  import Roster

  // --- The shape of a log ------------------------------------------------------------------

  predicate Lists(f: ServerFrame, r: RowId) {
    f.RoomState? && exists i :: 0 <= i < |f.participants| && f.participants[i].id == r
  }

  predicate IsArrival(f: ServerFrame, r: RowId) {
    f.PeerJoined? && f.participant.id == r
  }

  predicate IsSignalOf(f: ServerFrame, r: RowId) {
    f.Relayed? && f.from == r
  }

  predicate IsDeparture(f: ServerFrame, r: RowId) {
    f.PeerLeft? && f.who == r
  }

  /** The snapshot is the first frame, it is addressed to the socket's own row, and it is the only one. */
  ghost predicate SnapshotFirst(wire: seq<ServerFrame>, you: RowId) {
    && wire != [] && wire[0].RoomState? && wire[0].you.id == you
    && forall i :: 1 <= i < |wire| ==> !wire[i].RoomState?
  }

  ghost predicate Unheard(wire: seq<ServerFrame>, r: RowId) {
    forall i :: 0 <= i < |wire| ==> !IsArrival(wire[i], r) && !IsSignalOf(wire[i], r)
  }

  /** Announced exactly once, at index `k`, and silent before that. */
  ghost predicate IntroducedAt(wire: seq<ServerFrame>, r: RowId, k: nat) {
    && k < |wire| && IsArrival(wire[k], r)
    && (forall i :: 0 <= i < |wire| && IsArrival(wire[i], r) ==> i == k)
    && (forall i :: 0 <= i < k ==> !IsSignalOf(wire[i], r))
  }

  ghost predicate Introduced(wire: seq<ServerFrame>, r: RowId) {
    exists k: nat :: IntroducedAt(wire, r, k)
  }

  /** `c` is the only socket its row was ever given. */
  ghost predicate Sole(s: State, c: ConnId) {
    c in s.sockets && forall d :: d in s.sockets && s.sockets[d].participantId == s.sockets[c].participantId ==> d == c
  }

  predicate Open(s: State, r: RowId) {
    r in s.db.rows && s.db.rows[r].leftAt.None?
  }

  predicate Gone(s: State, r: RowId) {
    r in s.db.rows && s.db.rows[r].leftAt.Some?
  }

  predicate Together(s: State, c: ConnId, d: ConnId) {
    c in s.sockets && d in s.sockets && s.sockets[c].meetingId == s.sockets[d].meetingId
  }

  // --- The invariant --------------------------------------------------------------------------

  ghost predicate ShapesOk(s: State) {
    forall c :: c in s.sockets ==> c in s.wires && SnapshotFirst(s.wires[c], s.sockets[c].participantId)
  }

  /** A snapshot lists exactly rows older than its socket, and every one of them still open. */
  ghost predicate SnapshotsOk(s: State) {
    && (forall c, r: RowId :: c in s.sockets && c in s.wires && s.wires[c] != [] && Lists(s.wires[c][0], r) ==> r < c)
    && (forall c, r: RowId ::
          c in s.sockets && Open(s, r) && r < c && s.db.rows[r].meetingId == s.sockets[c].meetingId ==>
          c in s.wires && s.wires[c] != [] && Lists(s.wires[c][0], r))
  }

  ghost predicate DeparturesOk(s: State) {
    forall c, i :: c in s.wires && 0 <= i < |s.wires[c]| && s.wires[c][i].PeerLeft? ==> Gone(s, s.wires[c][i].who)
  }

  ghost predicate StrangersOk(s: State) {
    forall c, r: RowId :: c in s.wires && r !in Owners(s.sockets) ==> Unheard(s.wires[c], r)
  }

  /** An open row that was ever given a socket names one. */
  ghost predicate BoundTotal(s: State) {
    forall c :: c in s.sockets && Open(s, s.sockets[c].participantId) ==>
      s.db.rows[s.sockets[c].participantId].connectionId.Some?
  }

  /** Of two sole sockets of open rows in one meeting, the earlier was introduced to the later. */
  ghost predicate IntroductionsOk(s: State) {
    forall c, d :: c < d && Together(s, c, d) && Sole(s, c) && Sole(s, d) && c in s.wires
                   && s.sockets[c].participantId != s.sockets[d].participantId
                   && Open(s, s.sockets[c].participantId)
                   ==> Introduced(s.wires[c], s.sockets[d].participantId)
  }

  ghost predicate Mannered(s: State) {
    ShapesOk(s) && SnapshotsOk(s) && DeparturesOk(s) && StrangersOk(s) && BoundTotal(s) && IntroductionsOk(s)
  }

  // --- Appending plain frames -------------------------------------------------------------------

  ghost predicate PlainSuffix(before: seq<ServerFrame>, after: seq<ServerFrame>, rows: Rows, owners: set<RowId>) {
    && before <= after
    && forall i :: |before| <= i < |after| ==> Plain(rows, owners, after[i])
  }

  lemma PlainKeepsShape(a: seq<ServerFrame>, b: seq<ServerFrame>, rows: Rows, owners: set<RowId>, you: RowId)
    requires PlainSuffix(a, b, rows, owners) && SnapshotFirst(a, you)
    ensures SnapshotFirst(b, you) && b[0] == a[0]
  {
    forall i | 1 <= i < |b| ensures !b[i].RoomState? {
      if i < |a| { assert b[i] == a[i]; }
    }
  }

  lemma PlainKeepsUnheard(a: seq<ServerFrame>, b: seq<ServerFrame>, rows: Rows, owners: set<RowId>, r: RowId)
    requires PlainSuffix(a, b, rows, owners) && Unheard(a, r) && r !in owners
    ensures Unheard(b, r)
  {
    forall i | 0 <= i < |b| ensures !IsArrival(b[i], r) && !IsSignalOf(b[i], r) {
      if i < |a| { assert b[i] == a[i]; }
    }
  }

  lemma PlainKeepsIntroduced(a: seq<ServerFrame>, b: seq<ServerFrame>, rows: Rows, owners: set<RowId>, r: RowId)
    requires PlainSuffix(a, b, rows, owners) && Introduced(a, r)
    ensures Introduced(b, r)
  {
    var k: nat :| IntroducedAt(a, r, k);
    assert b[k] == a[k];
    forall i | 0 <= i < |b| && IsArrival(b[i], r) ensures i == k {
      if i < |a| { assert b[i] == a[i]; }
    }
    assert IntroducedAt(b, r, k);
  }

  lemma ArrivalIntroduces(a: seq<ServerFrame>, p: RosterEntry)
    requires Unheard(a, p.id)
    ensures Introduced(a + [PeerJoined(p)], p.id)
  {
    assert IntroducedAt(a + [PeerJoined(p)], p.id, |a|);
  }

  lemma OtherArrival(a: seq<ServerFrame>, p: RosterEntry, r: RowId)
    requires r != p.id
    ensures Unheard(a, r) ==> Unheard(a + [PeerJoined(p)], r)
    ensures Introduced(a, r) ==> Introduced(a + [PeerJoined(p)], r)
  {
    if Introduced(a, r) {
      var k: nat :| IntroducedAt(a, r, k);
      assert IntroducedAt(a + [PeerJoined(p)], r, k);
    }
  }

  // --- Steps other than connect ---------------------------------------------------------------------

  /** What any step but connect does, as far as introductions are concerned. */
  ghost predicate PlainStep(s: State, t: State) {
    && t.sockets == s.sockets
    && (forall c :: c in s.wires ==> c in t.wires && PlainSuffix(s.wires[c], t.wires[c], t.db.rows, Owners(s.sockets)))
    && t.wires.Keys == s.wires.Keys
    && LifecycleProofs.HistoryKept(s.db, t.db)
    && (forall r :: r in t.db.rows && r !in s.db.rows ==> s.next <= r)
    && (forall r :: Open(t, r) && r in s.db.rows ==> t.db.rows[r].connectionId == s.db.rows[r].connectionId)
  }

  lemma PlainStepShapes(s: State, t: State)
    requires PlainStep(s, t) && ShapesOk(s)
    ensures ShapesOk(t)
  {
    hide SnapshotFirst;
    hide PlainSuffix;
    forall c | c in t.sockets ensures c in t.wires && SnapshotFirst(t.wires[c], t.sockets[c].participantId) {
      PlainKeepsShape(s.wires[c], t.wires[c], t.db.rows, Owners(s.sockets), s.sockets[c].participantId);
    }
  }

  lemma PlainStepHeads(s: State, t: State)
    requires PlainStep(s, t) && ShapesOk(s)
    ensures forall c :: c in s.sockets ==>
                          c in t.wires && t.wires[c] != [] && s.wires[c] != [] && t.wires[c][0] == s.wires[c][0]
  {
    forall c | c in s.sockets
      ensures c in t.wires && t.wires[c] != [] && s.wires[c] != [] && t.wires[c][0] == s.wires[c][0]
    {
    }
  }

  lemma PlainStepSnapshots(s: State, t: State)
    requires PlainStep(s, t) && ShapesOk(s) && SnapshotsOk(s) && IdsMinted(s)
    ensures SnapshotsOk(t)
  {
    hide PlainSuffix;
    hide Lists;
    hide ShapesOk;
    PlainStepHeads(s, t);
    forall c, r: RowId | c in t.sockets && Open(t, r) && r < c && t.db.rows[r].meetingId == t.sockets[c].meetingId
      ensures Lists(t.wires[c][0], r)
    {
      assert r in s.db.rows;
    }
  }

  lemma PlainStepDepartures(s: State, t: State)
    requires PlainStep(s, t) && DeparturesOk(s)
    ensures DeparturesOk(t)
  {
    forall c, i | c in t.wires && 0 <= i < |t.wires[c]| && t.wires[c][i].PeerLeft? ensures Gone(t, t.wires[c][i].who) {
      if i < |s.wires[c]| {
        assert t.wires[c][i] == s.wires[c][i];
        assert LifecycleProofs.RowKept(s.db.rows[s.wires[c][i].who], t.db.rows[s.wires[c][i].who]);
      } else {
        assert Plain(t.db.rows, Owners(s.sockets), t.wires[c][i]);
      }
    }
  }

  lemma PlainStepStrangers(s: State, t: State)
    requires PlainStep(s, t) && StrangersOk(s)
    ensures StrangersOk(t)
  {
    hide PlainSuffix;
    hide Unheard;
    forall c, r: RowId | c in t.wires && r !in Owners(t.sockets) ensures Unheard(t.wires[c], r) {
      PlainKeepsUnheard(s.wires[c], t.wires[c], t.db.rows, Owners(s.sockets), r);
    }
  }

  lemma PlainStepBound(s: State, t: State)
    requires PlainStep(s, t) && BoundTotal(s) && SocketsOk(s)
    ensures BoundTotal(t)
  {
    hide PlainSuffix;
    forall c | c in t.sockets && Open(t, t.sockets[c].participantId)
      ensures t.db.rows[t.sockets[c].participantId].connectionId.Some?
    {
    }
  }

  lemma PlainStepIntroductions(s: State, t: State)
    requires PlainStep(s, t) && IntroductionsOk(s) && SocketsOk(s)
    ensures IntroductionsOk(t)
  {
    hide PlainSuffix;
    hide Introduced;
    forall c, d | c < d && Together(t, c, d) && Sole(t, c) && Sole(t, d) && c in t.wires
                  && t.sockets[c].participantId != t.sockets[d].participantId
                  && Open(t, t.sockets[c].participantId)
      ensures Introduced(t.wires[c], t.sockets[d].participantId)
    {
      assert Sole(s, c) && Sole(s, d) && Together(s, c, d);
      PlainKeepsIntroduced(s.wires[c], t.wires[c], t.db.rows, Owners(s.sockets), s.sockets[d].participantId);
    }
  }

  lemma PlainStepKeeps(s: State, t: State)
    requires PlainStep(s, t) && Mannered(s) && IdsMinted(s) && SocketsOk(s)
    ensures Mannered(t)
  {
    hide PlainStep;
    hide ShapesOk;
    hide SnapshotsOk;
    hide DeparturesOk;
    hide StrangersOk;
    hide BoundTotal;
    hide IntroductionsOk;
    PlainStepShapes(s, t);
    PlainStepSnapshots(s, t);
    PlainStepDepartures(s, t);
    PlainStepStrangers(s, t);
    PlainStepBound(s, t);
    PlainStepIntroductions(s, t);
  }

  predicate AddsNothing(s: State, t: State) {
    t.sockets == s.sockets && t.db.rows.Keys == s.db.rows.Keys
  }

  lemma HostFramesAddNothing(s: State, c: Connection, target: Option<RowId>)
    requires Keyed(s.db.rows)
    ensures AddsNothing(s, HandleHostMute(s, c, target))
    ensures AddsNothing(s, HandleHostRemove(s, c, target))
  {
    hide Delivered;
    hide ClosedParticipant;
  }

  lemma MuteAllAddsNothing(s: State, c: Connection)
    requires Keyed(s.db.rows)
    ensures AddsNothing(s, HandleHostMuteAll(s, c))
  {
    hide MuteNotices;
  }

  lemma HostEndAddsNothing(s: State, c: Connection)
    requires Keyed(s.db.rows)
    ensures AddsNothing(s, HandleHostEnd(s, c))
  {
    hide Delivered;
    hide RemovedAllBut;
  }

  lemma FrameAddsNothing(s: State, c: Connection, frame: ClientFrame)
    requires Keyed(s.db.rows)
    ensures AddsNothing(s, Handle(s, c, frame))
  {
    hide Delivered;
    hide HandleHostMute;
    hide HandleHostRemove;
    hide HandleHostMuteAll;
    hide HandleHostEnd;
    match frame {
      case HostMuteFrame(target) => HostFramesAddNothing(s, c, target);
      case HostRemoveFrame(target) => HostFramesAddNothing(s, c, target);
      case HostMuteAllFrame => MuteAllAddsNothing(s, c);
      case HostEndFrame => HostEndAddsNothing(s, c);
      case _ =>
    }
  }

  lemma TeardownAddsNothing(s: State, c: Connection)
    requires Keyed(s.db.rows)
    ensures TeardownSocket(s, c).sockets == s.sockets
    ensures TeardownSocket(s, c).db.rows.Keys == s.db.rows.Keys
  {
  }

  lemma StepAddsAtMostOneRow(s: State, step: Step)
    requires Invariant(s) && !step.Connect?
    ensures Apply(s, step).sockets == s.sockets
    ensures forall r :: r in Apply(s, step).db.rows && r !in s.db.rows ==> s.next <= r
  {
    hide Handle;
    hide TeardownSocket;
    hide LifecycleProofs.Invariant;
    hide LifecycleProofs.Calm;
    hide RoomsOk;
    hide BoundOk;
    InvariantFacts(s);
    match step {
      case Receive(c, frame) => if c in s.sockets { FrameAddsNothing(s, s.sockets[c], frame); }
      case Teardown(c) => if c in s.sockets { TeardownAddsNothing(s, s.sockets[c]); }
      case Tick(_) =>
      case _ => RestMoves(s, step);
    }
  }

  lemma StepIsPlain(s: State, step: Step)
    requires Invariant(s) && !step.Connect?
    ensures PlainStep(s, Apply(s, step))
  {
    hide Apply;
    hide Plain;
    hide LifecycleProofs.Invariant;
    hide LifecycleProofs.BindsNothing;
    hide LifecycleProofs.HistoryKept;
    hide LifecycleProofs.StatusDiscipline;
    hide IdsMinted;
    hide RoomsOk;
    hide BoundOk;
    var t := Apply(s, step);
    StepAddsAtMostOneRow(s, step);
    ApplyKeeps(s, step);
    StepConfined(s, step);
    forall c | c in s.wires ensures c in t.wires && PlainSuffix(s.wires[c], t.wires[c], t.db.rows, Owners(s.sockets)) {
    }
    forall r | Open(t, r) && r in s.db.rows ensures t.db.rows[r].connectionId == s.db.rows[r].connectionId {
      CalmKeepsSocket(s.db, t.db, r, t.clock);
    }
  }

  // --- The connect step ------------------------------------------------------------------------------

  /** Everything a successful connect changes. */
  ghost predicate Admission(s: State, t: State, p: Participant) {
    var c := Connection(s.next, p.id, p.meetingId);
    && p.id in s.db.rows && s.db.rows[p.id] == p && p.leftAt.None?
    && c.id !in s.sockets && c.id !in s.wires
    && t.sockets == s.sockets[c.id := c]
    && t.db.rows == s.db.rows[p.id := p.(connectionId := Some(c.id))]
    && t.wires.Keys == s.wires.Keys + {c.id}
    && t.wires[c.id] == [RoomState(ActiveRoster(t.db.rows, p.meetingId), Serialize(p))]
    && forall d :: d in s.wires ==>
         t.wires[d] == if d in Ids(s.Room(p.meetingId)) then s.wires[d] + [PeerJoined(Serialize(p))] else s.wires[d]
  }

  /** The newcomer itself is sent the snapshot and nothing else. */
  lemma NewcomerHearsTheSnapshot(s: State, c: Connection, p: Participant)
    requires c.id !in s.wires && c.meetingId == p.meetingId
    ensures var t := ToRoom(Admitted(s, c, p), c.meetingId, PeerJoined(Serialize(p)), Some(c.id));
            && t.wires.Keys == s.wires.Keys + {c.id}
            && t.wires[c.id] == [RoomState(ActiveRoster(t.db.rows, p.meetingId), Serialize(p))]
            && t.db == Bind(s.db, p, c.id) && t.sockets == s.sockets[c.id := c]
            && t.rooms == Added(s.rooms, c) && t.running == s.running + {c.id}
            && t.next == s.next + 1 && t.clock == s.clock
  {
    hide ActiveRoster;
    hide Bind;
    hide Added;
  }

  lemma ConnectAdmits(s: State, number: MeetingId, session: RowId)
    requires Invariant(s)
    ensures var t := ConnectSocket(s, number, session);
            if s.next in t.sockets then
              && session in s.db.rows && Admission(s, t, s.db.rows[session])
              && t.rooms == Added(s.rooms, t.sockets[s.next]) && t.running == s.running + {s.next}
              && t.db.meetings == s.db.meetings && t.next == s.next + 1 && t.clock == s.clock
            else t == s.(next := t.next)
  {
    hide LifecycleProofs.Invariant;
    hide BoundOk;
    hide RoomsOk;
    hide ActiveRoster;
    hide Delivered;
    hide Admitted;
    hide Serialize;
    hide Ids;
    InvariantFacts(s);
    ConnectAppends(s, number, session);
    var a := Authenticate(s.db, number, session);
    if a.Ok? && RoomHasSpace(s.db, a.value.meetingId) {
      NewcomerHearsTheSnapshot(s, Connection(s.next, a.value.id, a.value.meetingId), a.value);
    }
  }

  lemma AdmissionShapes(s: State, t: State, p: Participant)
    requires Admission(s, t, p) && ShapesOk(s) && SocketsOk(s)
    ensures ShapesOk(t)
  {
    hide ActiveRoster;
    forall d | d in t.sockets ensures d in t.wires && SnapshotFirst(t.wires[d], t.sockets[d].participantId) {
      if d in s.sockets { assert SnapshotFirst(s.wires[d], s.sockets[d].participantId); }
    }
  }

  lemma AdmissionNewSnapshot(s: State, t: State, p: Participant)
    requires Admission(s, t, p) && IdsMinted(s) && Keyed(s.db.rows)
    ensures forall r: RowId :: Lists(t.wires[s.next][0], r) ==> r < s.next
    ensures forall r: RowId :: Open(t, r) && t.db.rows[r].meetingId == p.meetingId ==> Lists(t.wires[s.next][0], r)
  {
    hide ActiveRoster;
    hide Serialize;
    assert Keyed(t.db.rows);
    Roster.ActiveRosterLists(t.db, p.meetingId);
    forall r: RowId | Lists(t.wires[s.next][0], r) ensures r < s.next {
      var entries := ActiveRoster(t.db.rows, p.meetingId);
      var i :| 0 <= i < |entries| && entries[i].id == r;
      assert Roster.Present(t.db, p.meetingId, entries[i].id);
    }
    forall r: RowId | Open(t, r) && t.db.rows[r].meetingId == p.meetingId ensures Lists(t.wires[s.next][0], r) {
      assert Roster.Present(t.db, p.meetingId, r);
    }
  }

  lemma AdmissionSnapshots(s: State, t: State, p: Participant)
    requires Admission(s, t, p) && ShapesOk(s) && SnapshotsOk(s) && SocketsOk(s) && IdsMinted(s) && Keyed(s.db.rows)
    ensures SnapshotsOk(t)
  {
    hide ActiveRoster;
    hide Lists;
    AdmissionNewSnapshot(s, t, p);
    forall d | d in s.sockets
      ensures d in t.wires && s.wires[d] != [] && t.wires[d] != [] && t.wires[d][0] == s.wires[d][0] {
      assert SnapshotFirst(s.wires[d], s.sockets[d].participantId);
    }
    forall d, r: RowId | d in t.sockets && Open(t, r) && r < d && t.db.rows[r].meetingId == t.sockets[d].meetingId
      ensures d in t.wires && t.wires[d] != [] && Lists(t.wires[d][0], r)
    {
      if d in s.sockets { assert Open(s, r); }
    }
  }

  lemma AdmissionDepartures(s: State, t: State, p: Participant)
    requires Admission(s, t, p) && DeparturesOk(s)
    ensures DeparturesOk(t)
  {
    hide ActiveRoster;
    forall d, i | d in t.wires && 0 <= i < |t.wires[d]| && t.wires[d][i].PeerLeft? ensures Gone(t, t.wires[d][i].who) {
      if d in s.wires { assert t.wires[d][i] == s.wires[d][i] && Gone(s, s.wires[d][i].who); }
    }
  }

  lemma AdmissionOwners(s: State, t: State, p: Participant)
    requires Admission(s, t, p)
    ensures Owners(t.sockets) == Owners(s.sockets) + {p.id}
  {
    hide ActiveRoster;
    Roster.ConnectedWith(s.sockets, t.sockets[s.next]);
  }

  lemma AdmissionStrangers(s: State, t: State, p: Participant)
    requires Admission(s, t, p) && StrangersOk(s)
    ensures StrangersOk(t)
  {
    hide ActiveRoster;
    hide Owners;
    AdmissionOwners(s, t, p);
    forall d, r: RowId | d in t.wires && r !in Owners(t.sockets) ensures Unheard(t.wires[d], r) {
      if d in s.wires { OtherArrival(s.wires[d], Serialize(p), r); }
    }
  }

  lemma AdmissionBound(s: State, t: State, p: Participant)
    requires Admission(s, t, p) && BoundTotal(s)
    ensures BoundTotal(t)
  {
    hide ActiveRoster;
  }

  /** The earlier sole socket of an open row is registered when the later one connects. */
  lemma SoleSocketIsRegistered(s: State, c: ConnId)
    requires Sole(s, c) && Open(s, s.sockets[c].participantId) && BoundTotal(s) && BoundOk(s) && SocketsOk(s)
    ensures c in Ids(s.Room(s.sockets[c].meetingId))
  {
    assert s.db.rows[s.sockets[c].participantId].connectionId == Some(c);
    assert s.sockets[c] in s.Room(s.sockets[c].meetingId) && s.sockets[c].id == c;
  }

  lemma SoleBefore(s: State, t: State, p: Participant, c: ConnId)
    requires Admission(s, t, p) && Sole(t, c)
    ensures c in s.sockets ==> Sole(s, c) && s.sockets[c] == t.sockets[c] && s.sockets[c].participantId != p.id
    ensures c !in s.sockets ==> c == s.next && p.id !in Owners(s.sockets)
  {
    hide ActiveRoster;
    assert t.sockets[s.next].participantId == p.id;
    if c in s.sockets {
      forall d | d in s.sockets && s.sockets[d].participantId == s.sockets[c].participantId ensures d == c {
        assert t.sockets[d] == s.sockets[d];
      }
    } else {
      forall d | d in s.sockets ensures s.sockets[d].participantId != p.id {
        assert t.sockets[d] == s.sockets[d];
      }
    }
  }

  lemma AdmissionIntroductions(s: State, t: State, p: Participant)
    requires Admission(s, t, p) && IntroductionsOk(s) && StrangersOk(s) && BoundTotal(s)
    requires BoundOk(s) && SocketsOk(s) && IdsMinted(s)
    ensures IntroductionsOk(t)
  {
    hide ActiveRoster;
    hide Introduced;
    hide Unheard;
    hide BoundOk;
    hide BoundTotal;
    hide Sole;
    hide Owners;
    forall c, d | c < d && Together(t, c, d) && Sole(t, c) && Sole(t, d) && c in t.wires
                  && t.sockets[c].participantId != t.sockets[d].participantId
                  && Open(t, t.sockets[c].participantId)
      ensures Introduced(t.wires[c], t.sockets[d].participantId)
    {
      SoleBefore(s, t, p, c);
      SoleBefore(s, t, p, d);
      if d == s.next {
        SoleSocketIsRegistered(s, c);
        ArrivalIntroduces(s.wires[c], Serialize(p));
      } else {
        OtherArrival(s.wires[c], Serialize(p), s.sockets[d].participantId);
      }
    }
  }

  lemma ConnectKeepsManners(s: State, number: MeetingId, session: RowId)
    requires Invariant(s) && Mannered(s)
    ensures Mannered(ConnectSocket(s, number, session))
  {
    hide ConnectSocket;
    hide LifecycleProofs.Invariant;
    hide ShapesOk;
    hide SnapshotsOk;
    hide DeparturesOk;
    hide StrangersOk;
    hide BoundTotal;
    hide IntroductionsOk;
    hide IdsMinted;
    hide SocketsOk;
    hide RoomsOk;
    hide BoundOk;
    hide Admission;
    InvariantFacts(s);
    ConnectAdmits(s, number, session);
    var t := ConnectSocket(s, number, session);
    if s.next in t.sockets {
      var p := s.db.rows[session];
      AdmissionShapes(s, t, p);
      AdmissionSnapshots(s, t, p);
      AdmissionDepartures(s, t, p);
      AdmissionStrangers(s, t, p);
      AdmissionBound(s, t, p);
      AdmissionIntroductions(s, t, p);
    } else {
      NextIsImmaterial(s, t);
    }
  }

  lemma NextIsImmaterial(s: State, t: State)
    requires t == s.(next := t.next) && Mannered(s)
    ensures Mannered(t)
  {
    hide Lists;
    hide Introduced;
    hide Unheard;
    hide SnapshotFirst;
    assert forall c :: Sole(t, c) == Sole(s, c);
    assert forall r :: Open(t, r) == Open(s, r) && Gone(t, r) == Gone(s, r);
  }

  lemma {:induction false} EveryRunIsMannered(steps: seq<Step>)
    ensures Mannered(Run(steps))
  {
    hide Invariant;
    hide Mannered;
    if steps == [] {
      NobodyIsMannered();
    } else {
      var n := |steps| - 1;
      var s := Run(steps[..n]);
      EveryRunIsMannered(steps[..n]);
      Reachable(steps[..n]);
      StepKeepsManners(s, steps[n]);
    }
  }

  lemma NobodyIsMannered()
    ensures Mannered(INIT)
  {
  }

  lemma StepKeepsManners(s: State, step: Step)
    requires Invariant(s) && Mannered(s)
    ensures Mannered(Apply(s, step))
  {
    hide Apply;
    hide Mannered;
    hide LifecycleProofs.Invariant;
    if step.Connect? {
      ConnectApplied(s, step);
      ConnectKeepsManners(s, step.number, step.session);
    } else {
      StepIsPlain(s, step);
      PlainStepKeeps(s, Apply(s, step));
    }
  }
}
