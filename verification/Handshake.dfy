// A connect cut in two at the acceptance of the socket: what was checked before it may have changed
// when the socket is registered and bound after it. What needs no whole connects holds here too.

module Handshake {
  import opened Model
  import opened Lifecycle
  import LifecycleProofs
  import opened Protocol
  import opened Registry
  import opened Server
  import opened ServerProofs
  import Isolation

  /** `waiting`: the rows authenticated for sockets not yet accepted. */
  datatype Fine = Fine(server: State, waiting: seq<RowId>)

  /** A whole step, a connect included if nothing comes between; or one of the halves of a connect. */
  datatype FineStep = Whole(step: Step) | Begins(number: MeetingId, session: RowId) | Finishes(i: nat)

  /** The second half: the socket is registered and bound, whatever has become of its row and meeting. */
  function Seat(s: State, r: RowId): State {
    if r !in s.db.rows then s
    else
      var p := s.db.rows[r];
      var c := Connection(s.next, p.id, p.meetingId);
      if !RoomHasSpace(s.db, p.meetingId) then s.(next := s.next + 1)
      else ToRoom(Admitted(s, c, p), c.meetingId, PeerJoined(Serialize(p)), Some(c.id))
  }

  function Advance(f: Fine, step: FineStep): Fine {
    match step
    case Whole(step) => f.(server := Apply(f.server, step))
    case Begins(number, session) =>
      if Authenticate(f.server.db, number, session).Ok? then f.(waiting := f.waiting + [session]) else f
    case Finishes(i) =>
      if i < |f.waiting| then Fine(Seat(f.server, f.waiting[i]), f.waiting[..i] + f.waiting[i + 1..]) else f
  }

  function FineRun(steps: seq<FineStep>): Fine {
    if steps == [] then Fine(INIT, []) else Advance(FineRun(steps[..|steps| - 1]), steps[|steps| - 1])
  }

  lemma {:induction false} FineRunStep(steps: seq<FineStep>, step: FineStep)
    ensures FineRun(steps + [step]) == Advance(FineRun(steps), step)
  {
    assert (steps + [step])[..|steps|] == steps;
  }

  /** A connect that nothing comes between is one step of the coarser machine. */
  lemma BothHalvesAreAConnect(f: Fine, number: MeetingId, session: RowId)
    requires Core(f.server)
    ensures Authenticate(f.server.db, number, session).Ok? ==>
              Advance(Advance(f, Begins(number, session)), Finishes(|f.waiting|))
              == Advance(f, Whole(Connect(number, session)))
    ensures Authenticate(f.server.db, number, session).Err? ==>
              Advance(f, Begins(number, session)) == Advance(f, Whole(Connect(number, session)))
  {
    hide LifecycleProofs.Invariant;
    hide Admitted;
    hide ToRoom;
    hide Serialize;
    hide RoomHasSpace;
    CoreFacts(f.server);
    Isolation.ConnectApplied(f.server, Connect(number, session));
    hide Apply;
  }

  // --- What every step keeps -----------------------------------------------------------------------------

  lemma SeatKeeps(s: State, r: RowId)
    requires Core(s)
    ensures Core(Seat(s, r)) && LifecycleProofs.Step(s.db, Seat(s, r).db, s.clock) && Seat(s, r).clock == s.clock
  {
    hide LifecycleProofs.Invariant;
    hide LifecycleProofs.Step;
    hide LifecycleProofs.Calm;
    hide Core;
    hide ActiveRoster;
    CoreFacts(s);
    CalmIsStep(s);
    if r in s.db.rows {
      var p := s.db.rows[r];
      var c := Connection(s.next, p.id, p.meetingId);
      AdmissionKeeps(s, c, p);
      SendingKeeps(Admitted(s, c, p), ToRoom(Admitted(s, c, p), c.meetingId, PeerJoined(Serialize(p)), Some(c.id)));
      MintingKeeps(s);
    }
  }

  lemma MintingKeeps(s: State)
    requires Core(s)
    ensures Core(s.(next := s.next + 1))
  {
    hide LifecycleProofs.Invariant;
  }

  lemma AdvanceKeeps(f: Fine, step: FineStep)
    requires Core(f.server)
    ensures var t := Advance(f, step).server; Core(t) && LifecycleProofs.Step(f.server.db, t.db, t.clock)
  {
    hide Core;
    hide Apply;
    hide Seat;
    hide LifecycleProofs.Step;
    match step
    case Whole(step) => ApplyKeepsCore(f.server, step);
    case Begins(_, _) => CalmIsStep(f.server);
    case Finishes(i) =>
      CalmIsStep(f.server);
      if i < |f.waiting| { SeatKeeps(f.server, f.waiting[i]); }
  }

  /** The core of the invariant needs no whole connects. */
  lemma {:induction false} FineReachable(steps: seq<FineStep>)
    ensures Core(FineRun(steps).server)
  {
    if steps != [] {
      hide Core;
      hide Advance;
      FineReachable(steps[..|steps| - 1]);
      AdvanceKeeps(FineRun(steps[..|steps| - 1]), steps[|steps| - 1]);
    } else {
      StartsWell();
    }
  }

  lemma StartsWell()
    ensures Core(INIT)
  {
  }

  // --- Status, stamps, cap -------------------------------------------------------------------------------

  /** Each step moves each meeting along an edge or not at all, and rewrites no history. */
  lemma {:induction false} FineStatusFollowsTransitions(steps: seq<FineStep>, step: FineStep)
    ensures LifecycleProofs.StatusDiscipline(FineRun(steps).server.db, FineRun(steps + [step]).server.db)
    ensures LifecycleProofs.HistoryKept(FineRun(steps).server.db, FineRun(steps + [step]).server.db)
  {
    hide Core;
    hide Advance;
    hide LifecycleProofs.Invariant;
    hide LifecycleProofs.StatusDiscipline;
    hide LifecycleProofs.HistoryKept;
    FineReachable(steps);
    FineRunStep(steps, step);
    AdvanceKeeps(FineRun(steps), step);
  }

  lemma {:induction false} FineStampsAgree(steps: seq<FineStep>, m: MeetingId)
    requires m in FineRun(steps).server.db.meetings
    ensures var s := FineRun(steps).server; var meeting := s.db.meetings[m];
            && (meeting.endedAt.Some? <==> meeting.status == Ended)
            && (meeting.status == Live ==> meeting.startedAt.Some?)
            && (meeting.status == Ended ==> meeting.startedAt.Some?
                                            && meeting.startedAt.value <= meeting.endedAt.value
                                            && OpenRows(s.db.rows, m) == {})
  {
    hide FineRun;
    FineReachable(steps);
  }

  /** The cap holds, and nobody is refused for lack of room, however long the acceptance took. */
  lemma {:induction false} FineMeshCap(steps: seq<FineStep>, r: RowId)
    ensures forall m :: m in FineRun(steps).server.db.meetings ==>
              |OpenRows(FineRun(steps).server.db.rows, m)| <= MAX_MESH_PARTICIPANTS
    ensures r in FineRun(steps).server.db.rows ==>
              FineRun(steps).server.next in Seat(FineRun(steps).server, r).sockets
  {
    hide FineRun;
    hide ActiveRoster;
    hide Delivered;
    FineReachable(steps);
  }

  /** A closed row keeps its first stamp. */
  lemma {:induction false} FineClosingStampIsWrittenOnce(steps: seq<FineStep>, more: seq<FineStep>, r: RowId)
    requires r in FineRun(steps).server.db.rows && FineRun(steps).server.db.rows[r].leftAt.Some?
    ensures r in FineRun(steps + more).server.db.rows
    ensures FineRun(steps + more).server.db.rows[r].leftAt == FineRun(steps).server.db.rows[r].leftAt
  {
    hide FineRun;
    if more == [] {
      assert steps + more == steps;
    } else {
      var n := |more| - 1;
      FineClosingStampIsWrittenOnce(steps, more[..n], r);
      assert steps + more == steps + more[..n] + [more[n]];
      FineStatusFollowsTransitions(steps + more[..n], more[n]);
      assert LifecycleProofs.RowKept(FineRun(steps + more[..n]).server.db.rows[r],
                                     FineRun(steps + more).server.db.rows[r]);
    }
  }

  // --- Isolation ---------------------------------------------------------------------------------------------

  /** The meeting a step acts in. */
  function FineActsIn(f: Fine, step: FineStep): Option<MeetingId> {
    match step
    case Whole(step) => Isolation.ActsIn(f.server, step)
    case Begins(_, _) => None
    case Finishes(i) =>
      if i < |f.waiting| && f.waiting[i] in f.server.db.rows
      then Some(f.server.db.rows[f.waiting[i]].meetingId) else None
  }

  lemma SeatIsConfined(s: State, r: RowId)
    requires Core(s)
    ensures forall d :: d in s.wires ==>
              && d in s.sockets && d in Seat(s, r).wires && s.wires[d] <= Seat(s, r).wires[d]
              && (Seat(s, r).wires[d] != s.wires[d] ==>
                    r in s.db.rows && s.sockets[d].meetingId == s.db.rows[r].meetingId)
  {
    hide LifecycleProofs.Invariant;
    hide ActiveRoster;
  }

  /** Frames stay in the meeting of the step, and logs only grow. */
  lemma {:induction false} FineStepStaysInItsRoom(steps: seq<FineStep>, step: FineStep)
    ensures var f := FineRun(steps); var s, t := f.server, FineRun(steps + [step]).server;
            forall d :: d in s.wires ==>
              && d in s.sockets && d in t.wires && s.wires[d] <= t.wires[d]
              && (t.wires[d] != s.wires[d] ==> FineActsIn(f, step) == Some(s.sockets[d].meetingId))
  {
    hide FineRun;
    hide Apply;
    hide Seat;
    hide LifecycleProofs.Invariant;
    hide RoomsOk;
    hide Isolation.Plain;
    var f := FineRun(steps);
    var s := f.server;
    FineReachable(steps);
    FineRunStep(steps, step);
    match step {
      case Whole(whole) =>
        if whole.Connect? {
          Isolation.ConnectApplied(s, whole);
          BothHalvesAreAConnect(f, whole.number, whole.session);
          SeatIsConfined(s, whole.session);
          ConnectMeeting(s, whole.number, whole.session);
        } else {
          Isolation.StepConfined(s, whole);
        }
      case Begins(_, _) =>
      case Finishes(i) => if i < |f.waiting| { SeatIsConfined(s, f.waiting[i]); }
    }
  }

  /** Whoever authenticates for a number has a row of that meeting. */
  lemma ConnectMeeting(s: State, number: MeetingId, session: RowId)
    requires Core(s)
    ensures ConnectSocket(s, number, session) == s
            || (ConnectSocket(s, number, session) == Seat(s, session)
                && session in s.db.rows && s.db.rows[session].meetingId == number)
  {
    hide LifecycleProofs.Invariant;
    hide Admitted;
    hide ToRoom;
    hide Serialize;
    hide RoomHasSpace;
    CoreFacts(s);
  }

  // --- What does need whole connects --------------------------------------------------------------------------

  /** A row that names a socket is open. */
  ghost predicate BoundIsOpen(db: Db) {
    forall r :: r in db.rows && db.rows[r].connectionId.Some? ==> db.rows[r].leftAt.None?
  }

  /** The second half of a connect finds the row closed meanwhile. */
  predicate FindsRowClosed(f: Fine, step: FineStep) {
    && step.Finishes? && step.i < |f.waiting| && f.waiting[step.i] in f.server.db.rows
    && f.server.db.rows[f.waiting[step.i]].leftAt.Some?
  }

  lemma CalmKeepsBoundOpen(a: Db, b: Db)
    requires BoundIsOpen(a) && LifecycleProofs.BindsNothing(a, b)
    ensures BoundIsOpen(b)
  {
    forall r | r in b.rows && b.rows[r].connectionId.Some? ensures b.rows[r].leftAt.None? {
      assert LifecycleProofs.SocketKept(a.rows, b.rows[r]);
    }
  }

  lemma SeatBinds(s: State, r: RowId)
    requires Core(s) && BoundIsOpen(s.db)
    ensures BoundIsOpen(Seat(s, r).db) <==> !(r in s.db.rows && s.db.rows[r].leftAt.Some?)
  {
    hide LifecycleProofs.StampsOk;
    hide ActiveRoster;
    hide Delivered;
    if r in s.db.rows {
      assert LifecycleProofs.RowOk(s.db, s.db.rows[r], s.clock);
      assert RoomHasSpace(s.db, s.db.rows[r].meetingId);
      assert Seat(s, r).db == Bind(s.db, s.db.rows[r], s.next);
      assert r in Seat(s, r).db.rows && Seat(s, r).db.rows[r].connectionId == Some(s.next);
    }
  }

  /** The one way to a closed row that names a socket is to bind it after it was closed. */
  lemma BoundStaysOpenIff(f: Fine, step: FineStep)
    requires Core(f.server) && BoundIsOpen(f.server.db)
    ensures BoundIsOpen(Advance(f, step).server.db) <==> !FindsRowClosed(f, step)
  {
    hide Core;
    hide BoundIsOpen;
    hide Apply;
    hide Seat;
    hide LifecycleProofs.Step;
    hide LifecycleProofs.BindsNothing;
    match step {
      case Whole(whole) =>
        ApplyKeepsCore(f.server, whole);
        if whole.Connect? {
          Isolation.ConnectApplied(f.server, whole);
          ConnectMeeting(f.server, whole.number, whole.session);
          ConnectFindsRowOpen(f.server, whole.number, whole.session);
          SeatBinds(f.server, whole.session);
        } else {
          CalmKeepsBoundOpen(f.server.db, Apply(f.server, whole).db);
        }
      case Begins(_, _) =>
      case Finishes(i) => if i < |f.waiting| { SeatBinds(f.server, f.waiting[i]); }
    }
  }

  lemma ConnectFindsRowOpen(s: State, number: MeetingId, session: RowId)
    ensures session in s.db.rows && s.db.rows[session].leftAt.Some? ==> ConnectSocket(s, number, session) == s
  {
  }
}
