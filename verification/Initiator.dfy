// Who makes the offer, end to end: the order of the server's frames meets the dispatch of
// the client.

module Initiator {
  import opened Model
  import opened Protocol
  import opened Registry
  import opened Server
  import opened ServerProofs
  import opened Guarantees
  import opened Introductions
  import opened MeetingRoom
  import Isolation
  import LifecycleProofs

  /** The life of a client: the frames it handles, in log order, between whatever its user does. */
  datatype Event = Heard(frame: ServerFrame) | Did(action: Action)

  function Live(c: Client, events: seq<Event>): Client {
    if events == [] then c
    else
      var before := Live(c, events[..|events| - 1]);
      match events[|events| - 1]
      case Heard(f) => Dispatch(before, f)
      case Did(a) => Act(before, a)
  }

  function Frames(events: seq<Event>): seq<ServerFrame> {
    if events == [] then []
    else
      Frames(events[..|events| - 1]) +
      match events[|events| - 1]
      case Heard(f) => [f]
      case Did(_) => []
  }

  /** A client that has met nobody yet. */
  predicate Fresh(c: Client) {
    c.mesh == Mesh(map[], []) && !c.left
  }

  function Offers(c: Client, r: RowId): nat {
    multiset(c.mesh.offered)[r]
  }

  // --- One event -------------------------------------------------------------------------

  lemma {:induction false} SnapshotMeets(m: Mesh, entries: seq<RosterEntry>, you: RowId, r: RowId)
    ensures AddPeers(m, entries, you).offered == m.offered
    ensures r in AddPeers(m, entries, you).roles <==>
              r in m.roles || (r != you && exists i :: 0 <= i < |entries| && entries[i].id == r)
  {
    if entries != [] {
      var n := |entries| - 1;
      SnapshotMeets(m, entries[..n], you, r);
      if exists i :: 0 <= i < |entries| && entries[i].id == r {
        var i :| 0 <= i < |entries| && entries[i].id == r;
        if i < n { assert entries[..n][i].id == r; }
      }
      if exists i :: 0 <= i < n && entries[..n][i].id == r {
        var i :| 0 <= i < n && entries[..n][i].id == r;
        assert entries[i].id == r;
      }
    }
  }

  /** A frame that neither lists, announces, signals for nor removes `r` leaves `r` as it was. */
  lemma OthersDoNotMatter(c: Client, f: ServerFrame, r: RowId)
    requires !c.left && !Lists(f, r) && !IsArrival(f, r) && !IsSignalOf(f, r) && !IsDeparture(f, r)
    ensures Offers(Dispatch(c, f), r) == Offers(c, r)
    ensures Dispatch(c, f).left || (r in Dispatch(c, f).mesh.roles <==> r in c.mesh.roles)
  {
    if f.RoomState? {
      SnapshotMeets(c.mesh, f.participants, f.you.id, r);
    }
  }

  /** Once `r` is known, only its departure can make it unknown, and nothing makes an offer to it. */
  lemma KnownStaysKnown(c: Client, f: ServerFrame, r: RowId)
    requires !c.left && r in c.mesh.roles && !IsDeparture(f, r)
    ensures Offers(Dispatch(c, f), r) == Offers(c, r)
    ensures Dispatch(c, f).left || r in Dispatch(c, f).mesh.roles
  {
    if f.RoomState? {
      SnapshotMeets(c.mesh, f.participants, f.you.id, r);
    }
  }

  lemma SnapshotMakesKnown(c: Client, f: ServerFrame, r: RowId)
    requires !c.left && Lists(f, r) && r != f.you.id
    ensures Offers(Dispatch(c, f), r) == Offers(c, r)
    ensures !Dispatch(c, f).left && r in Dispatch(c, f).mesh.roles
  {
    SnapshotMeets(c.mesh, f.participants, f.you.id, r);
  }

  lemma UserDoesNotMatter(c: Client, a: Action, r: RowId)
    ensures Offers(Act(c, a), r) == Offers(c, r)
    ensures Act(c, a).left || (!c.left && Act(c, a).mesh == c.mesh)
  {
  }

  // --- A client whose snapshot lists the other ----------------------------------------------------

  ghost predicate NoDeparture(wire: seq<ServerFrame>, r: RowId) {
    forall i :: 0 <= i < |wire| ==> !IsDeparture(wire[i], r)
  }

  lemma {:induction false} FramesStep(events: seq<Event>, wire: seq<ServerFrame>)
    requires events != [] && Frames(events) <= wire
    ensures var rest := Frames(events[..|events| - 1]);
            && rest <= wire
            && (events[|events| - 1].Heard? ==>
                  && |rest| < |wire| && events[|events| - 1].frame == wire[|rest|]
                  && |Frames(events)| == |rest| + 1)
            && (events[|events| - 1].Did? ==> Frames(events) == rest)
  {
  }

  /** Listed in the snapshot, the other is a peer we never offer to. */
  lemma {:induction false} ListedIsNeverOffered(c: Client, events: seq<Event>,
      wire: seq<ServerFrame>, you: RowId, r: RowId)
    requires Fresh(c) && Frames(events) <= wire
    requires SnapshotFirst(wire, you) && Lists(wire[0], r) && r != you && NoDeparture(wire, r)
    ensures Offers(Live(c, events), r) == 0
    ensures Frames(events) != [] ==> Live(c, events).left || r in Live(c, events).mesh.roles
  {
    if events != [] {
      var n := |events| - 1;
      var before := Live(c, events[..n]);
      FramesStep(events, wire);
      ListedIsNeverOffered(c, events[..n], wire, you, r);
      match events[n] {
        case Did(a) =>
        case Heard(f) =>
          if !before.left {
            if Frames(events[..n]) == [] { SnapshotMakesKnown(before, f, r); }
            else { KnownStaysKnown(before, f, r); }
          }
      }
    }
  }

  // --- A client to whom the other is introduced ------------------------------------------------------

  /** Introduced by an arrival, the other is offered to once, as soon as the arrival is handled. */
  lemma {:induction false} IntroducedIsOfferedOnce(c: Client, events: seq<Event>,
      wire: seq<ServerFrame>, r: RowId, k: nat)
    requires Fresh(c) && Frames(events) <= wire
    requires IntroducedAt(wire, r, k) && NoDeparture(wire, r)
    requires forall i :: 0 <= i < |wire| ==> !Lists(wire[i], r)
    ensures |Frames(events)| <= k ==>
        Offers(Live(c, events), r) == 0 && (Live(c, events).left || r !in Live(c, events).mesh.roles)
    ensures |Frames(events)| > k ==> if Live(c, events).left then Offers(Live(c, events), r) <= 1
                                     else Offers(Live(c, events), r) == 1 && r in Live(c, events).mesh.roles
  {
    if events != [] {
      var n := |events| - 1;
      var before := Live(c, events[..n]);
      FramesStep(events, wire);
      IntroducedIsOfferedOnce(c, events[..n], wire, r, k);
      var i := |Frames(events[..n])|;
      match events[n] {
        case Did(a) =>
        case Heard(f) =>
          if !before.left {
            if i < k { OthersDoNotMatter(before, f, r); }
            if i > k { KnownStaysKnown(before, f, r); }
          }
      }
    }
  }

  // --- End to end ----------------------------------------------------------------------------------

  /** Two participants of one meeting, one socket each, both still in the room; `c` registered first. */
  ghost predicate Pair(s: State, c: ConnId, d: ConnId) {
    && c < d && Together(s, c, d) && Sole(s, c) && Sole(s, d)
    && s.sockets[c].participantId != s.sockets[d].participantId
    && Open(s, s.sockets[c].participantId) && Open(s, s.sockets[d].participantId)
  }

  /** A row is older than any socket of it. */
  ghost predicate RowsPrecede(s: State) {
    forall c :: c in s.sockets ==> s.sockets[c].participantId < c
  }

  lemma {:induction false} RowsPrecedeSockets(steps: seq<Step>)
    ensures RowsPrecede(Run(steps))
  {
    if steps != [] {
      var n := |steps| - 1;
      var s := Run(steps[..n]);
      RowsPrecedeSockets(steps[..n]);
      Reachable(steps[..n]);
      SocketsOnlyByConnect(s, steps[n]);
    }
  }

  lemma SocketsOnlyByConnect(s: State, step: Step)
    requires Invariant(s) && RowsPrecede(s)
    ensures RowsPrecede(Apply(s, step))
  {
    hide Apply;
    hide LifecycleProofs.Invariant;
    hide BoundOk;
    hide RoomsOk;
    if step.Connect? {
      Isolation.ConnectApplied(s, step);
      ConnectAdmits(s, step.number, step.session);
    } else {
      StepAddsAtMostOneRow(s, step);
    }
  }

  /** The later-registered participant never creates the offer, whatever else happens in the run. */
  lemma {:induction false} LaterNeverOffers(steps: seq<Step>, c: ConnId, d: ConnId, client: Client, events: seq<Event>)
    requires Pair(Run(steps), c, d) && Fresh(client)
    requires d in Run(steps).wires && Frames(events) <= Run(steps).wires[d]
    ensures Offers(Live(client, events), Run(steps).sockets[c].participantId) == 0
  {
    hide IntroductionsOk;
    hide StrangersOk;
    hide BoundTotal;
    hide Sole;
    var s := Run(steps);
    var p := s.sockets[c].participantId;
    EveryRunIsMannered(steps);
    RowsPrecedeSockets(steps);
    SocketMeeting(steps, c);
    assert Lists(s.wires[d][0], p);
    ListedIsNeverOffered(client, events, s.wires[d], s.sockets[d].participantId, p);
  }

  lemma SocketMeeting(steps: seq<Step>, c: ConnId)
    requires c in Run(steps).sockets
    ensures var s := Run(steps);
            s.sockets[c].participantId in s.db.rows
            && s.db.rows[s.sockets[c].participantId].meetingId == s.sockets[c].meetingId
  {
    hide LifecycleProofs.Invariant;
    hide RoomsOk;
    hide BoundOk;
    Reachable(steps);
  }

  /**
   * Once the earlier participant has handled its whole log and is still in the room, it has
   * created one offer if the later row was minted after its socket registered, and none if the
   * row already existed: then its snapshot listed the row, and neither side will ever offer.
   */
  lemma {:induction false} EarlierOffersExactlyWhenTheRowIsNewer(steps: seq<Step>, c: ConnId, d: ConnId,
                                                                 client: Client, events: seq<Event>)
    requires Pair(Run(steps), c, d) && Fresh(client)
    requires c in Run(steps).wires && Frames(events) <= Run(steps).wires[c]
    ensures var q := Run(steps).sockets[d].participantId;
            && Offers(Live(client, events), q) <= (if c < q then 1 else 0)
            && (Frames(events) == Run(steps).wires[c] && !Live(client, events).left ==>
                  Offers(Live(client, events), q) == if c < q then 1 else 0)
  {
    hide StrangersOk;
    hide BoundTotal;
    hide Introduced;
    hide IntroducedAt;
    hide Sole;
    var s := Run(steps);
    var q := s.sockets[d].participantId;
    EveryRunIsMannered(steps);
    SocketMeeting(steps, c);
    SocketMeeting(steps, d);
    RowIsNoSocket(steps, q, c);
    if q < c {
      assert Lists(s.wires[c][0], q);
      ListedIsNeverOffered(client, events, s.wires[c], s.sockets[c].participantId, q);
    } else {
      assert Introduced(s.wires[c], q);
      IntroducedCounts(client, events, s.wires[c], q);
    }
  }

  lemma UnlistedElsewhere(s: State, c: ConnId, q: RowId)
    requires ShapesOk(s) && SnapshotsOk(s) && c in s.sockets && c < q && c in s.wires
    ensures forall i :: 0 <= i < |s.wires[c]| ==> !Lists(s.wires[c][i], q)
  {
    assert SnapshotFirst(s.wires[c], s.sockets[c].participantId);
  }

  lemma {:induction false} IntroducedCounts(c: Client, events: seq<Event>, wire: seq<ServerFrame>, r: RowId)
    requires Fresh(c) && Frames(events) <= wire && Introduced(wire, r) && NoDeparture(wire, r)
    requires forall i :: 0 <= i < |wire| ==> !Lists(wire[i], r)
    ensures Offers(Live(c, events), r) <= 1
    ensures Frames(events) == wire && !Live(c, events).left ==> Offers(Live(c, events), r) == 1
  {
    var k: nat :| IntroducedAt(wire, r, k);
    IntroducedIsOfferedOnce(c, events, wire, r, k);
  }

  /** Rows and sockets draw their ids from one counter and never share one. */
  ghost predicate IdsApart(s: State) {
    forall c :: c in s.sockets ==> c !in s.db.rows
  }

  lemma {:induction false} RowIsNoSocket(steps: seq<Step>, r: RowId, c: ConnId)
    requires r in Run(steps).db.rows && c in Run(steps).sockets
    ensures r != c
  {
    IdsStayApart(steps);
  }

  lemma {:induction false} IdsStayApart(steps: seq<Step>)
    ensures IdsApart(Run(steps))
  {
    if steps != [] {
      var n := |steps| - 1;
      IdsStayApart(steps[..n]);
      Reachable(steps[..n]);
      StepKeepsIdsApart(Run(steps[..n]), steps[n]);
    }
  }

  lemma StepKeepsIdsApart(s: State, step: Step)
    requires Invariant(s) && IdsApart(s)
    ensures IdsApart(Apply(s, step))
  {
    hide Apply;
    hide LifecycleProofs.Invariant;
    hide BoundOk;
    hide RoomsOk;
    if step.Connect? {
      Isolation.ConnectApplied(s, step);
      ConnectAdmits(s, step.number, step.session);
    } else {
      StepAddsAtMostOneRow(s, step);
    }
  }
}
