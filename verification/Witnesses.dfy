// Concrete runs: inputs at which the protocol does not do what one might expect of it.

module Witnesses {
  import opened Model
  import opened Lifecycle
  import opened Protocol
  import opened Registry
  import opened Server
  import opened ServerProofs
  import Columns
  import EndToEnd
  import Handshake
  import opened Guarantees
  import Initiator
  import Introductions
  import Isolation
  import MeetingPages
  import MeetingRoom
  import MeetingStore
  import opened Pagination
  import Replica
  import Roster

  // --- A host and a guest ---------------------------------------------------------------------

  const OWNER: UserId := 7
  const VISITOR: UserId := 8
  const QUIET: Flags := Flags(false, true, false)

  const CREATED: seq<Step> := [CreateMeeting(OWNER, None)]
  const JOINED: seq<Step> := CREATED + [JoinMeeting(0, OWNER, true, QUIET)]
  const BOTH_JOINED: seq<Step> := JOINED + [JoinMeeting(0, VISITOR, true, QUIET)]
  const HOST_IN: seq<Step> := BOTH_JOINED + [Connect(0, 1)]
  const BOTH_IN: seq<Step> := HOST_IN + [Connect(0, 2)]

  const HALL: Meeting := Meeting(0, OWNER, Live, None, Some(0), None, 0)

  function HostRow(socket: Option<ConnId>): Participant {
    Participant(1, 0, OWNER, Host, QUIET, 0, None, socket)
  }

  function GuestRow(flags: Flags, socket: Option<ConnId>): Participant {
    Participant(2, 0, VISITOR, Guest, flags, 0, None, socket)
  }

  const HOST_SOCKET: Connection := Connection(3, 1, 0)
  const GUEST_SOCKET: Connection := Connection(4, 2, 0)

  lemma RunOfOne(step: Step)
    ensures Run([step]) == Apply(INIT, step)
  {
    assert [step][..0] == [];
    assert Run([step]) == Apply(Exec(INIT, [step][..0]), [step][0]);
  }

  lemma AfterCreated()
    ensures var s := Run(CREATED);
            && s.db == Db(map[0 := HALL], map[]) && s.rooms == map[] && s.sockets == map[] && s.running == {}
            && s.wires == map[] && s.next == 1 && s.clock == 0
  {
    RunOfOne(CREATED[0]);
  }

  lemma AfterJoined()
    ensures var s := Run(JOINED);
            && s.db == Db(map[0 := HALL], map[1 := HostRow(None)]) && s.rooms == map[] && s.sockets == map[]
            && s.running == {} && s.wires == map[] && s.next == 2 && s.clock == 0
  {
    AfterCreated();
    assert OpenRows(map[], 0) == {};
  }

  lemma AfterBothJoined()
    ensures var s := Run(BOTH_JOINED);
            && s.db == Db(map[0 := HALL], map[1 := HostRow(None), 2 := GuestRow(QUIET, None)]) && s.rooms == map[]
            && s.sockets == map[] && s.running == {} && s.wires == map[] && s.next == 3 && s.clock == 0
  {
    AfterJoined();
    assert OpenRows(Run(JOINED).db.rows, 0) == {1};
  }

  /** A connect that is let in, but for what it sends. */
  lemma LetIn(s: State, number: MeetingId, p: Participant)
    requires Authenticate(s.db, number, p.id) == Ok(p) && RoomHasSpace(s.db, number)
    ensures var t, c := Apply(s, Connect(number, p.id)), Connection(s.next, p.id, number);
            && t.db == Db(s.db.meetings, s.db.rows[p.id := p.(connectionId := Some(c.id))])
            && t.rooms == s.rooms[number := RoomOf(s.rooms, number) + [c]]
            && t.sockets == s.sockets[c.id := c] && t.running == s.running + {c.id}
            && t.next == s.next + 1 && t.clock == s.clock
  {
    hide Delivered;
    hide ActiveRoster;
  }

  lemma AfterHostIn()
    ensures var s := Run(HOST_IN);
            && s.db == Db(map[0 := HALL], map[1 := HostRow(Some(3)), 2 := GuestRow(QUIET, None)])
            && s.rooms == map[0 := [HOST_SOCKET]] && s.sockets == map[3 := HOST_SOCKET]
            && s.running == {3} && s.next == 4 && s.clock == 0
  {
    hide Apply;
    AfterBothJoined();
    assert OpenRows(Run(BOTH_JOINED).db.rows, 0) == {1, 2};
    LetIn(Run(BOTH_JOINED), 0, HostRow(None));
    assert RoomOf(map[], 0) + [HOST_SOCKET] == [HOST_SOCKET];
  }

  lemma AfterBothIn()
    ensures var s := Run(BOTH_IN);
            && s.db == Db(map[0 := HALL], map[1 := HostRow(Some(3)), 2 := GuestRow(QUIET, Some(4))])
            && s.rooms == map[0 := [HOST_SOCKET, GUEST_SOCKET]]
            && s.sockets == map[3 := HOST_SOCKET, 4 := GUEST_SOCKET]
            && s.running == {3, 4} && s.next == 5 && s.clock == 0
  {
    hide Apply;
    AfterHostIn();
    assert OpenRows(Run(HOST_IN).db.rows, 0) == {1, 2};
    LetIn(Run(HOST_IN), 0, GuestRow(QUIET, None));
    assert RoomOf(map[0 := [HOST_SOCKET]], 0) + [GUEST_SOCKET] == [HOST_SOCKET, GUEST_SOCKET];
  }

  // --- Both passive ------------------------------------------------------------------------------

  /** Both rows were there before either socket: each is in the other's snapshot. */
  lemma BothInIsAPair()
    ensures Initiator.Pair(Run(BOTH_IN), 3, 4)
  {
    AfterBothIn();
  }

  lemma {:induction false} SocketsStay(steps: seq<Step>, more: seq<Step>, c: ConnId)
    requires c in Run(steps).sockets
    ensures c in Run(steps + more).sockets && Run(steps + more).sockets[c] == Run(steps).sockets[c]
  {
    hide Apply;
    hide Invariant;
    if more == [] {
      assert steps + more == steps;
    } else {
      var n := |more| - 1;
      SocketsStay(steps, more[..n], c);
      assert steps + more == steps + more[..n] + [more[n]];
      Reachable(steps + more[..n]);
      Replica.StepCarries(Run(steps + more[..n]), more[n]);
    }
  }

  /**
   * However the run goes on while both rows stay open and neither reconnects, neither client ever creates
   * an offer: the two never get a connection.
   */
  lemma {:induction false} NobodyEverOffers(more: seq<Step>, host: MeetingRoom.Client, guest: MeetingRoom.Client,
                         hostEvents: seq<Initiator.Event>, guestEvents: seq<Initiator.Event>)
    requires Initiator.Pair(Run(BOTH_IN + more), 3, 4) && Initiator.Fresh(host) && Initiator.Fresh(guest)
    requires 3 in Run(BOTH_IN + more).wires && Initiator.Frames(hostEvents) <= Run(BOTH_IN + more).wires[3]
    requires 4 in Run(BOTH_IN + more).wires && Initiator.Frames(guestEvents) <= Run(BOTH_IN + more).wires[4]
    ensures Initiator.Offers(Initiator.Live(host, hostEvents), 2) == 0
    ensures Initiator.Offers(Initiator.Live(guest, guestEvents), 1) == 0
  {
    hide Run;
    AfterBothIn();
    SocketsStay(BOTH_IN, more, 3);
    SocketsStay(BOTH_IN, more, 4);
    Initiator.LaterNeverOffers(BOTH_IN + more, 3, 4, guest, guestEvents);
    Initiator.EarlierOffersExactlyWhenTheRowIsNewer(BOTH_IN + more, 3, 4, host, hostEvents);
  }

  // --- An unannounced departure ---------------------------------------------------------------------

  lemma GuestHearsTheSnapshot()
    ensures var s, t := Run(HOST_IN), Run(BOTH_IN);
            && 2 in s.db.rows && 4 in t.wires
            && t.wires[4] == [RoomState(ActiveRoster(t.db.rows, 0), Serialize(s.db.rows[2]))]
  {
    hide Apply;
    hide Invariant;
    hide ActiveRoster;
    var s, t := Run(HOST_IN), Run(BOTH_IN);
    AfterHostIn();
    AfterBothIn();
    Reachable(HOST_IN);
    Isolation.ConnectApplied(s, Connect(0, 2));
    Introductions.ConnectAdmits(s, 0, 2);
  }

  /** The socket that has just connected knows its own row. */
  lemma GuestIsHeardOf()
    ensures Roster.AllAgree(Run(BOTH_IN)) && Roster.HeardOf(Run(BOTH_IN), 2)
  {
    hide Apply;
    hide Run;
    hide ActiveRoster;
    var t := Run(BOTH_IN);
    AfterBothIn();
    GuestHearsTheSnapshot();
    Roster.EveryLogAgreesWithTheTables(BOTH_IN);
    Roster.LogAppends([], t.wires[4][0]);
    assert [] + [t.wires[4][0]] == t.wires[4];
    assert GUEST_SOCKET in RoomOf(t.rooms, 0);
    assert Roster.Agrees(t.db, 0, Roster.Connected(t), Roster.Log(t.wires[4]));
    assert 4 in t.sockets && t.sockets[4].participantId == 2;
    assert Roster.Present(t.db, 0, 2) && 2 in Roster.Connected(t);
  }

  /** The guest leaves by REST: everybody goes on seeing it. */
  lemma LeavingByRestGoesUnheard()
    ensures Roster.AllAgree(Run(BOTH_IN)) && !Roster.AllAgree(Run(BOTH_IN + [LeaveMeeting(2)]))
  {
    hide Apply;
    hide Invariant;
    hide Roster.AllAgree;
    hide Roster.HeardOf;
    GuestIsHeardOf();
    Reachable(BOTH_IN);
    Roster.RestCallAgreesIff(Run(BOTH_IN), LeaveMeeting(2));
  }

  // --- A beginning of an end-to-end run ---------------------------------------------------------------

  const HOST_ALONE: seq<Step> := JOINED + [Connect(0, 1)]
  const GUEST_CAME: seq<Step> := HOST_ALONE + [JoinMeeting(0, VISITOR, true, QUIET)]
  const MET: seq<Step> := GUEST_CAME + [Connect(0, 3)]
  const THE_TWO: EndToEnd.Names := EndToEnd.Names(2, 4, 1, 3)

  function LateRow(socket: Option<ConnId>): Participant {
    Participant(3, 0, VISITOR, Guest, QUIET, 0, None, socket)
  }

  lemma AfterHostAlone()
    ensures var s := Run(HOST_ALONE);
            && s.db == Db(map[0 := HALL], map[1 := HostRow(Some(2))])
            && s.rooms == map[0 := [Connection(2, 1, 0)]] && s.sockets == map[2 := Connection(2, 1, 0)]
            && s.running == {2} && s.next == 3 && s.clock == 0
  {
    hide Apply;
    AfterJoined();
    assert OpenRows(Run(JOINED).db.rows, 0) == {1};
    LetIn(Run(JOINED), 0, HostRow(None));
    assert RoomOf(map[], 0) + [Connection(2, 1, 0)] == [Connection(2, 1, 0)];
  }

  lemma AfterGuestCame()
    ensures var s := Run(GUEST_CAME);
            && s.db == Db(map[0 := HALL], map[1 := HostRow(Some(2)), 3 := LateRow(None)])
            && s.sockets == map[2 := Connection(2, 1, 0)] && s.next == 4
  {
    AfterHostAlone();
    assert OpenRows(Run(HOST_ALONE).db.rows, 0) == {1};
  }

  lemma AfterMet()
    ensures var s := Run(MET);
            && s.db == Db(map[0 := HALL], map[1 := HostRow(Some(2)), 3 := LateRow(Some(4))])
            && s.sockets == map[2 := Connection(2, 1, 0), 4 := Connection(4, 3, 0)]
  {
    hide Apply;
    AfterGuestCame();
    assert OpenRows(Run(GUEST_CAME).db.rows, 0) == {1, 3};
    LetIn(Run(GUEST_CAME), 0, LateRow(None));
  }

  /** A guest joins and connects after the host's socket: here the end-to-end results begin. */
  lemma TheTwoBegin()
    ensures var e := EndToEnd.End(UNMUTED, None, [], 0);
            EndToEnd.Begins(THE_TWO, EndToEnd.Link(Run(MET), e, e, 0, multiset{}, multiset{}), GUEST_CAME, 0)
  {
    hide Run;
    hide Invariant;
    AfterGuestCame();
    AfterMet();
    Introductions.EveryRunIsMannered(MET);
    assert Introductions.SnapshotFirst(Run(MET).wires[2], 1);
  }

  // --- A mute undone by a reconnect ---------------------------------------------------------------------

  /** A client that joined unmuted with its camera on. */
  const UNMUTED: MeetingRoom.Client :=
    MeetingRoom.Client(MeetingStore.INITIAL, None, MeetingRoom.Media(false, true),
        MeetingRoom.Mesh(map[], []), false, [])

  const SERVED: seq<Replica.Move> := [
    Replica.Serve(CreateMeeting(OWNER, None), UNMUTED), Replica.Serve(JoinMeeting(0, OWNER, true, QUIET), UNMUTED),
    Replica.Serve(JoinMeeting(0, VISITOR, true, QUIET), UNMUTED),
    Replica.Serve(Connect(0, 1), UNMUTED), Replica.Serve(Connect(0, 2), UNMUTED)]
  const MUTE: ClientFrame := HostMuteFrame(Some(2))
  const MUTED: seq<Replica.Move> := SERVED + [Replica.UserDoes(3, MeetingRoom.Send(MUTE))] + [Replica.Forward(3)]
  const RECONNECTED: seq<Replica.Move> := MUTED + [Replica.Serve(Connect(0, 2), UNMUTED)]
  const REPORTED: seq<Replica.Move> := RECONNECTED + [Replica.Read(5)] + [Replica.Forward(5)]

  lemma {:induction false} PlayStep(moves: seq<Replica.Move>, move: Replica.Move)
    ensures Replica.Play(moves + [move]) == Replica.ApplyMove(Replica.Play(moves), move)
  {
    assert (moves + [move])[..|moves|] == moves;
  }

  lemma PlayServed()
    ensures var y := Replica.Play(SERVED);
            && y.server == Run(BOTH_IN)
            && y.seats == map[3 := Replica.Seat(UNMUTED, 0), 4 := Replica.Seat(UNMUTED, 0)]
  {
    hide Apply;
    var m := SERVED;
    assert m[..1] == [] + [m[0]] && m[..2] == m[..1] + [m[1]] && m[..3] == m[..2] + [m[2]];
    assert m[..4] == m[..3] + [m[3]] && m == m[..4] + [m[4]];
    PlayStep([], m[0]);
    PlayStep(m[..1], m[1]);
    PlayStep(m[..2], m[2]);
    PlayStep(m[..3], m[3]);
    PlayStep(m[..4], m[4]);
    RunOfOne(CREATED[0]);

    AfterCreated();
    AfterJoined();
    AfterBothJoined();
    AfterHostIn();
    AfterBothIn();
  }

  lemma PlayMuted()
    ensures var y, s := Replica.Play(MUTED), Run(BOTH_IN);
            && y.server.db == Db(s.db.meetings, s.db.rows[2 := GuestRow(QUIET.(muted := true), Some(4))])
            && y.server.rooms == s.rooms && y.server.sockets == s.sockets && y.server.running == s.running
            && y.server.next == 5 && y.seats.Keys == {3, 4}
  {
    hide Delivered;
    PlayServed();
    AfterBothIn();

    HostMutesGuest(Run(BOTH_IN));
    hide Apply;
    hide Run;
  }

  lemma HostMutesGuest(s: State)
    requires 3 in s.running && 3 in s.sockets && s.sockets[3] == HOST_SOCKET
    requires s.db == Db(map[0 := HALL], map[1 := HostRow(Some(3)), 2 := GuestRow(QUIET, Some(4))])
    ensures var t := Apply(s, Receive(3, MUTE));
            && t.db == Db(s.db.meetings, s.db.rows[2 := GuestRow(QUIET.(muted := true), Some(4))])
            && t == s.(db := t.db, wires := t.wires)
  {
    hide Delivered;
  }

  lemma PlayReconnected()
    ensures var y := Replica.Play(RECONNECTED);
            && 2 in y.server.db.rows && y.server.db.rows[2] == GuestRow(QUIET.(muted := true), Some(5))
            && 5 in y.server.sockets && y.server.sockets[5] == Connection(5, 2, 0) && {4, 5} <= y.server.running
            && 5 in y.seats && y.seats[5] == Replica.Seat(UNMUTED, 0)
            && 5 in y.server.wires && y.server.wires[5] != [] && y.server.wires[5][0].RoomState?
  {
    hide Apply;
    hide Run;
    PlayMuted();
    AfterBothIn();
    var s := Replica.Play(MUTED).server;
    var p := GuestRow(QUIET.(muted := true), Some(4));
    assert OpenRows(s.db.rows, 0) == {1, 2};
    LetIn(s, 0, p);
    SnapshotIsSent(s, 0, p);
  }

  lemma SnapshotIsSent(s: State, number: MeetingId, p: Participant)
    requires Authenticate(s.db, number, p.id) == Ok(p) && RoomHasSpace(s.db, number)
    ensures var t := Apply(s, Connect(number, p.id));
            s.next in t.wires && t.wires[s.next] != [] && t.wires[s.next][0].RoomState?
  {
    hide ActiveRoster;
  }

  const READ: seq<Replica.Move> := RECONNECTED + [Replica.Read(5)]

  lemma PlayRead()
    ensures var y := Replica.Play(READ);
            && y.server == Replica.Play(RECONNECTED).server && 5 in y.seats
            && y.seats[5].client.outbox == [StateUpdate(MeetingRoom.Reported(MeetingRoom.Media(false, true)))]
  {
    hide MeetingRoom.Dispatch;
    PlayReconnected();
    var first := Replica.Play(RECONNECTED).server.wires[5][0];
    MeetingRoom.SnapshotShowsServerMediaIff(UNMUTED, first.participants, first.you);
  }

  /**
   * The host mutes the guest, the guest reconnects before its old socket is torn down, and the report the
   * client makes on its snapshot unmutes it in the table again.
   */
  lemma ReconnectUndoesTheMute()
    ensures forall i :: 0 <= i < |REPORTED| ==> Replica.Allowed(REPORTED[i])
    ensures MUTED <= REPORTED && 4 in Replica.Play(REPORTED).server.running
    ensures var before, after := Replica.Play(MUTED).server.db.rows, Replica.Play(REPORTED).server.db.rows;
            && 2 in before && before[2].flags.muted
            && 2 in after && !after[2].flags.muted && after[2].leftAt.None?
  {
    hide Apply;
    hide Run;
    hide Replica.Play;
    hide Replica.SystemOk;
    hide Invariant;
    PlayMuted();
    AfterBothIn();
    PlayReconnected();
    PlayRead();
    PlayStep(READ, Replica.Forward(5));
    assert READ + [Replica.Forward(5)] == REPORTED;
    var y := Replica.Play(READ);
    assert forall i :: 0 <= i < |REPORTED| ==> Replica.Allowed(REPORTED[i]);
    assert Invariant(y.server) by { Replica.EveryPlayIsOk(READ); InvariantOf(y); }
    var media := MeetingRoom.Media(false, true);
    Replica.ReportOverridesTheRow(y.server, 5, media);
    ReceivingKeepsRunning(y.server, 5, MeetingRoom.Reported(media));
  }

  lemma InvariantOf(y: Replica.System)
    requires Replica.SystemOk(y)
    ensures Invariant(y.server)
  {
  }

  lemma ReceivingKeepsRunning(s: State, c: ConnId, changes: Changes)
    ensures Apply(s, Receive(c, StateUpdate(changes))).running == s.running
  {
    hide Delivered;
  }

  // --- A meeting ended twice -------------------------------------------------------------------------------

  /** Three meetings; the host is connected to the second, which it ends by frame; the others end by REST. */
  const THREE: seq<Step> := [CreateMeeting(OWNER, None)] + [CreateMeeting(OWNER, None)] + [CreateMeeting(OWNER, None)]
  const SEATED: seq<Step> := THREE + [JoinMeeting(1, OWNER, true, QUIET)] + [Connect(1, 3)]
  const OVER: seq<Step> :=
    SEATED + [EndMeeting(2, OWNER)] + [Tick(1)] + [Receive(4, HostEndFrame)] + [Tick(1)] + [EndMeeting(0, OWNER)]
  const OVER_AGAIN: seq<Step> := OVER + [Tick(1)] + [Receive(4, HostEndFrame)]

  function Running(id: MeetingId): Meeting {
    Meeting(id, OWNER, Live, None, Some(0), None, 0)
  }

  function EndedAt(id: MeetingId, at: int): Meeting {
    Meeting(id, OWNER, Ended, None, Some(0), Some(at), 0)
  }

  lemma AfterThree()
    ensures var s := Run(THREE);
            && s.db == Db(map[0 := Running(0), 1 := Running(1), 2 := Running(2)], map[])
            && s.rooms == map[] && s.sockets == map[] && s.running == {} && s.next == 3 && s.clock == 0
  {
    var create := CreateMeeting(OWNER, None);
    RunOfOne(create);
    RunStep([create], create);
    RunStep([create] + [create], create);
  }

  const CHAIR: Connection := Connection(4, 3, 1)

  function ChairRow(at: Option<int>): Participant {
    Participant(3, 1, OWNER, Host, QUIET, 0, at, if at.None? then Some(4) else None)
  }

  /** The host's socket is running, and its row is as it is. */
  ghost predicate Seated(s: State, meetings: map<MeetingId, Meeting>, left: Option<int>, now: int) {
    && s.db == Db(meetings, map[3 := ChairRow(left)]) && s.clock == now
    && 4 in s.running && s.sockets == map[4 := CHAIR]
  }

  lemma AfterSeated()
    ensures Seated(Run(SEATED), map[0 := Running(0), 1 := Running(1), 2 := Running(2)], None, 0)
  {
    hide Delivered;
    hide ActiveRoster;
    var join := JoinMeeting(1, OWNER, true, QUIET);
    AfterThree();
    assert OpenRows(map[], 1) == {};
    hide Apply;
    var p := Participant(3, 1, OWNER, Host, QUIET, 0, None, None);
    assert OpenRows(Run(THREE + [join]).db.rows, 1) == {3};
  }

  lemma EndsByRest(s: State, meetings: map<MeetingId, Meeting>, left: Option<int>, now: int, id: MeetingId)
    requires Seated(s, meetings, left, now) && id in meetings && meetings[id] == Running(id) && id != 1
    ensures Seated(Apply(s, EndMeeting(id, OWNER)), meetings[id := EndedAt(id, now)], left, now)
  {
    assert OpenRows(s.db.rows, id) == {};
    assert Evicted(s.db.rows, {}, now) == s.db.rows;
  }

  lemma EndsByFrame(s: State, meetings: map<MeetingId, Meeting>, left: Option<int>, now: int)
    requires Seated(s, meetings, left, now) && 1 in meetings
    requires meetings[1].(status := Ended, endedAt := Some(now)) == EndedAt(1, now)
    ensures Seated(Apply(s, Receive(4, HostEndFrame)), meetings[1 := EndedAt(1, now)],
                   if left.None? then Some(now) else left, now)
  {
    hide Delivered;
    hide RemovedAllBut;
    assert OpenRows(s.db.rows, 1) == if left.None? then {3} else {};
  }

  const FIRST_VIEW: map<MeetingId, Meeting> := map[0 := EndedAt(0, 2), 1 := EndedAt(1, 1), 2 := EndedAt(2, 0)]
  const SECOND_VIEW: map<MeetingId, Meeting> := map[0 := EndedAt(0, 2), 1 := EndedAt(1, 3), 2 := EndedAt(2, 0)]

  lemma AfterOver()
    ensures Seated(Run(OVER), FIRST_VIEW, Some(1), 2)
  {
    hide Apply;
    hide Seated;
    AfterSeated();
    var m := map[0 := Running(0), 1 := Running(1), 2 := Running(2)];
    var a := SEATED + [EndMeeting(2, OWNER)];
    EndsByRest(Run(SEATED), m, None, 0, 2);
    var b := a + [Tick(1)];
    TimePasses(Run(a), m[2 := EndedAt(2, 0)], None, 0);
    var c := b + [Receive(4, HostEndFrame)];
    EndsByFrame(Run(b), m[2 := EndedAt(2, 0)], None, 1);
    var d := c + [Tick(1)];
    TimePasses(Run(c), m[2 := EndedAt(2, 0)][1 := EndedAt(1, 1)], Some(1), 1);
    EndsByRest(Run(d), m[2 := EndedAt(2, 0)][1 := EndedAt(1, 1)], Some(1), 2, 0);
    assert m[2 := EndedAt(2, 0)][1 := EndedAt(1, 1)][0 := EndedAt(0, 2)] == FIRST_VIEW;
  }

  lemma TimePasses(s: State, meetings: map<MeetingId, Meeting>, left: Option<int>, now: int)
    requires Seated(s, meetings, left, now)
    ensures Seated(Apply(s, Tick(1)), meetings, left, now + 1)
  {
  }

  lemma AfterOverAgain()
    ensures Seated(Run(OVER_AGAIN), SECOND_VIEW, Some(1), 3)
    ensures MeetingPages.EndsAgain(Run(OVER + [Tick(1)]), Receive(4, HostEndFrame), 1)
    ensures !MeetingPages.Touches(Run(OVER), Tick(1), 0)
    ensures !MeetingPages.Touches(Run(OVER + [Tick(1)]), Receive(4, HostEndFrame), 0)
  {
    hide Apply;
    AfterOver();
    RunStep(OVER, Tick(1));
    TimePasses(Run(OVER), FIRST_VIEW, Some(1), 2);
    RunStep(OVER + [Tick(1)], Receive(4, HostEndFrame));
    EndsByFrame(Run(OVER + [Tick(1)]), FIRST_VIEW, Some(1), 3);
    assert FIRST_VIEW[1 := EndedAt(1, 3)] == SECOND_VIEW;
  }

  /** A listing is known by its order and its members. */
  lemma ListingIs(table: Table, f: Filter, after: Option<Meeting>, rows: seq<Meeting>)
    requires Keyed(table) && Resumable(f, after) && Sorted(f, rows)
    requires forall x :: x in rows <==> Selected(table, f, OWNER, 0, after, x.id) && x == table[x.id]
    ensures Pagination.Rows(table, f, OWNER, 0, after) == rows
  {
    hide Pagination.Rows;
    hide Sorted;
    hide Selected;
    RowsHold(table, f, OWNER, 0, after);
    SortedIsUnique(f, Pagination.Rows(table, f, OWNER, 0, after), rows);
  }

  const VIEWS: seq<View> := [View(FIRST_VIEW, 0, 2), View(SECOND_VIEW, 0, 2)]

  lemma FirstPage()
    ensures Request(OWNER, Recent, VIEWS[0], None) == Listed(Page([EndedAt(0, 2), EndedAt(1, 1)], Some(1), true))
  {
    var rows := [EndedAt(0, 2), EndedAt(1, 1), EndedAt(2, 0)];
    ListingIs(FIRST_VIEW, Recent, None, rows);
    hide Pagination.Rows;
    assert rows[..2] == [EndedAt(0, 2), EndedAt(1, 1)];
  }

  lemma SecondPage()
    ensures Request(OWNER, Recent, VIEWS[1], Some(1)) == Listed(Page([EndedAt(0, 2), EndedAt(2, 0)], None, false))
  {
    ListingIs(SECOND_VIEW, Recent, Some(EndedAt(1, 3)), [EndedAt(0, 2), EndedAt(2, 0)]);
    hide Pagination.Rows;
  }

  /**
   * The host's socket stays registered and running when it ends the meeting, and may end it once more. The
   * anchor between two pages is then stamped anew, and an untouched row listed before it is listed again.
   */
  lemma SecondEndRepeatsARow()
    ensures MeetingPages.AlongRun(OVER_AGAIN, [|OVER|, |OVER_AGAIN|], VIEWS)
    ensures MeetingPages.Untouched(OVER_AGAIN, |OVER|, |OVER_AGAIN|, 0)
    ensures MeetingPages.EndsAgain(Run(OVER + [Tick(1)]), Receive(4, HostEndFrame), 1)
    ensures Finishes(OWNER, Recent, None, VIEWS)
    ensures Visited(OWNER, Recent, None, VIEWS) == [EndedAt(0, 2), EndedAt(1, 1), EndedAt(0, 2), EndedAt(2, 0)]
    ensures Times(Visited(OWNER, Recent, None, VIEWS), 0) == 2
  {
    hide Apply;
    hide Run;
    hide Request;
    hide MeetingPages.Touches;
    AfterOver();
    AfterOverAgain();
    FirstPage();
    SecondPage();
    assert OVER_AGAIN[..|OVER|] == OVER && OVER_AGAIN[..|OVER_AGAIN|] == OVER_AGAIN;
    assert OVER_AGAIN[..|OVER| + 1] == OVER + [Tick(1)];
    assert VIEWS[1..] == [VIEWS[1]];
    var visited := Visited(OWNER, Recent, None, VIEWS);
    assert visited == [EndedAt(0, 2), EndedAt(1, 1)] + Visited(OWNER, Recent, Some(1), [VIEWS[1]]);
    var one, two := visited[..2], visited[2..];
    assert visited == one + two;
    TimesTogether(one, two, 0);
    assert one[..1] == [EndedAt(0, 2)] && two[..1] == [EndedAt(0, 2)] && one[..1][..0] == [];
  }

  // --- A meeting rescheduled between two pages --------------------------------------------------------------

  const PLANNED: seq<Step> :=
    [CreateMeeting(OWNER, Some(10))] + [CreateMeeting(OWNER, Some(20))] + [CreateMeeting(OWNER, Some(30))]
  const POSTPONE: Step := UpdateMeeting(0, OWNER, Some(25))
  const POSTPONED: seq<Step> := PLANNED + [POSTPONE]

  function StartingAt(id: MeetingId, start: int): Meeting {
    Meeting(id, OWNER, Scheduled, Some(start), None, None, 0)
  }

  const PLAN: map<MeetingId, Meeting> := map[0 := StartingAt(0, 10), 1 := StartingAt(1, 20), 2 := StartingAt(2, 30)]
  const NEW_PLAN: map<MeetingId, Meeting> := map[0 := StartingAt(0, 25), 1 := StartingAt(1, 20), 2 := StartingAt(2, 30)]

  lemma AfterPlanned()
    ensures Run(PLANNED).db.meetings == PLAN && Run(PLANNED).clock == 0
  {
    var first := [CreateMeeting(OWNER, Some(10))];
    RunOfOne(first[0]);
    RunStep(first, CreateMeeting(OWNER, Some(20)));
    RunStep(first + [CreateMeeting(OWNER, Some(20))], CreateMeeting(OWNER, Some(30)));
  }

  lemma AfterPostponed()
    ensures Run(POSTPONED).db.meetings == NEW_PLAN && Columns.Edits(Run(PLANNED), POSTPONE, 0)
  {
    AfterPlanned();
    RunStep(PLANNED, POSTPONE);
    assert PLAN[0 := StartingAt(0, 25)] == NEW_PLAN;
  }

  const PLAN_VIEWS: seq<View> := [View(PLAN, 0, 1), View(NEW_PLAN, 0, 50)]

  lemma PlanPages()
    ensures Request(OWNER, Upcoming, PLAN_VIEWS[0], None) == Listed(Page([StartingAt(0, 10)], Some(0), true))
    ensures Request(OWNER, Upcoming, PLAN_VIEWS[1], Some(0)) == Listed(Page([StartingAt(2, 30)], None, false))
  {
    var rows := [StartingAt(0, 10), StartingAt(1, 20), StartingAt(2, 30)];
    ListingIs(PLAN, Upcoming, None, rows);
    ListingIs(NEW_PLAN, Upcoming, Some(StartingAt(0, 25)), [StartingAt(2, 30)]);
    hide Pagination.Rows;
    assert rows[..1] == [StartingAt(0, 10)];
  }

  /** An anchor postponed between two pages takes the walk with it, and a meeting nobody touched is never listed. */
  lemma PostponingSkipsARow()
    ensures MeetingPages.AlongRun(POSTPONED, [|PLANNED|, |POSTPONED|], PLAN_VIEWS)
    ensures Columns.Edits(Run(PLANNED), POSTPONE, 0) && !Columns.Edits(Run(PLANNED), POSTPONE, 1)
    ensures Stays(OWNER, Upcoming, 1, Some(20), PLAN_VIEWS)
    ensures Finishes(OWNER, Upcoming, None, PLAN_VIEWS)
    ensures Visited(OWNER, Upcoming, None, PLAN_VIEWS) == [StartingAt(0, 10), StartingAt(2, 30)]
    ensures Times(Visited(OWNER, Upcoming, None, PLAN_VIEWS), 1) == 0
  {
    hide Apply;
    hide Run;
    hide Request;
    AfterPlanned();
    AfterPostponed();
    PlanPages();
    assert POSTPONED[..|PLANNED|] == PLANNED && POSTPONED[..|POSTPONED|] == POSTPONED;
    assert PLAN_VIEWS[1..] == [PLAN_VIEWS[1]];
    var visited := Visited(OWNER, Upcoming, None, PLAN_VIEWS);
    assert visited == [StartingAt(0, 10)] + Visited(OWNER, Upcoming, Some(0), [PLAN_VIEWS[1]]);
    assert visited[..1] == [StartingAt(0, 10)] && visited[..1][..0] == [];
  }

  // --- A leave between the halves of a connect ------------------------------------------------------------

  const HOST_JOINED: seq<Handshake.FineStep> :=
    [Handshake.Whole(CreateMeeting(OWNER, None))] + [Handshake.Whole(JoinMeeting(0, OWNER, true, QUIET))]
  const SHAKING: seq<Handshake.FineStep> := HOST_JOINED + [Handshake.Begins(0, 1)]
  const LEFT: seq<Handshake.FineStep> := SHAKING + [Handshake.Whole(LeaveMeeting(1))]

  lemma AfterHostJoined()
    ensures Handshake.FineRun(HOST_JOINED) == Handshake.Fine(Run(JOINED), [])
  {
    hide Apply;
    hide Run;
    var first := [Handshake.Whole(CreateMeeting(OWNER, None))];
    Handshake.FineRunStep([], first[0]);
    assert [] + [first[0]] == first;
    Handshake.FineRunStep(first, Handshake.Whole(JoinMeeting(0, OWNER, true, QUIET)));
    RunOfOne(CREATED[0]);
    RunStep(CREATED, JoinMeeting(0, OWNER, true, QUIET));
  }

  lemma AfterLeft()
    ensures var f := Handshake.FineRun(LEFT);
            f.waiting == [1] && f.server.db.rows == map[1 := HostRow(None).(leftAt := Some(0))]
  {
    hide Run;
    AfterJoined();
    AfterHostJoined();
    Handshake.FineRunStep(HOST_JOINED, Handshake.Begins(0, 1));
    Handshake.FineRunStep(SHAKING, Handshake.Whole(LeaveMeeting(1)));
  }

  /** The host leaves while its socket awaits acceptance: its row is closed, and then names that socket. */
  lemma LeavingDuringTheHandshake()
    ensures Handshake.BoundIsOpen(Handshake.FineRun(LEFT).server.db)
    ensures !Handshake.BoundIsOpen(Handshake.FineRun(LEFT + [Handshake.Finishes(0)]).server.db)
  {
    hide Handshake.FineRun;
    hide Handshake.Seat;
    AfterLeft();
    Handshake.FineReachable(LEFT);
    Handshake.FineRunStep(LEFT, Handshake.Finishes(0));
    Handshake.BoundStaysOpenIff(Handshake.FineRun(LEFT), Handshake.Finishes(0));
  }
}
