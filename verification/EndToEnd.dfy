// Two clients with one socket each, from the moment the second connects: the server's relay and
// the sockets are the channels between their peer managers, the order of frames gives the roles,
// and every run of the whole is a play of two sides over first-in first-out channels.

module EndToEnd {
  import opened Model
  import opened Protocol
  import opened Server
  import opened ServerProofs
  import opened Guarantees
  import opened Introductions
  import opened Relay
  import Initiator
  import Replica
  import MeetingRoom
  import opened Jsep
  import Glare
  import PeerManager
  import LifecycleProofs

  // --- Two ends --------------------------------------------------------------------------------------

  /**
   * One client, of which we look at its peer for the other one: `outbox` holds the signals for the other
   * that the server has not received yet, `read` counts the frames handled.
   */
  datatype End = End(client: MeetingRoom.Client, peer: Option<Peer>, outbox: seq<Message>, read: nat)

  /** Socket `c` of row `p` registered first; `d` is the socket of the newer row `q`. */
  datatype Names = Names(c: ConnId, d: ConnId, p: RowId, q: RowId)

  datatype Link = Link(
    server: State, a: End, b: End, minted: nat, fromA: multiset<Candidate>, fromB: multiset<Candidate>)

  /** `Serve` is whatever else the server does, for these two or for others. */
  datatype Move =
    | Serve(step: Step)
    | Forward(side: Glare.Side)
    | Read(side: Glare.Side)
    | Gathers(side: Glare.Side, candidate: Candidate)
    | UserDoes(side: Glare.Side, action: MeetingRoom.Action)

  datatype Handled = Handled(end: End, minted: nat)

  /**
   * A frame is dispatched; a peer that becomes known is created in the role the dispatch gives it, and an
   * initiator makes its offer at once; a signal of the other goes to the peer.
   */
  function HandleFrame(e: End, other: RowId, f: ServerFrame, minted: nat): Handled {
    var client := MeetingRoom.Dispatch(e.client, f);
    if other !in client.mesh.roles then Handled(End(client, None, e.outbox, e.read + 1), minted)
    else
      var met := other !in e.client.mesh.roles || e.peer.None?;
      var peer := if met then Glare.Fresh(client.mesh.roles[other]) else e.peer.value;
      if met && client.mesh.roles[other] then
        var r := Glare.MakeOffer(peer, Sdp(AnOffer, minted));
        Handled(End(client, Some(r.peer), e.outbox + r.replies, e.read + 1), minted + 1)
      else if IsSignalOf(f, other) then
        var r := Glare.React(peer, Decoded(f.kind, f.payload), Sdp(AnAnswer, minted));
        Handled(End(client, Some(r.peer), e.outbox + r.replies, e.read + 1), minted + 1)
      else Handled(End(client, Some(peer), e.outbox, e.read + 1), minted)
  }

  predicate Ours(n: Names, step: Step) {
    && step.Receive? && step.frame.Signal?
    && ((step.c == n.c && step.frame.to == Some(n.q)) || (step.c == n.d && step.frame.to == Some(n.p)))
  }

  function Wire(s: State, c: ConnId): seq<ServerFrame> {
    if c in s.wires then s.wires[c] else []
  }

  function Received(s: State, c: ConnId, to: RowId, m: Message): State {
    if WellFormed(m) then Apply(s, Receive(c, Encoded(to, m))) else s
  }

  function Make(n: Names, y: Link, move: Move): Link {
    match move
    case Serve(step) => if Ours(n, step) then y else y.(server := Apply(y.server, step))
    case Forward(A) =>
      if y.a.outbox == [] then y
      else y.(server := Received(y.server, n.c, n.q, y.a.outbox[0]), a := y.a.(outbox := y.a.outbox[1..]))
    case Forward(B) =>
      if y.b.outbox == [] then y
      else y.(server := Received(y.server, n.d, n.p, y.b.outbox[0]), b := y.b.(outbox := y.b.outbox[1..]))
    case Read(A) =>
      if y.a.read >= |Wire(y.server, n.c)| then y
      else
        var h := HandleFrame(y.a, n.q, Wire(y.server, n.c)[y.a.read], y.minted);
        y.(a := h.end, minted := h.minted)
    case Read(B) =>
      if y.b.read >= |Wire(y.server, n.d)| then y
      else
        var h := HandleFrame(y.b, n.p, Wire(y.server, n.d)[y.b.read], y.minted);
        y.(b := h.end, minted := h.minted)
    case Gathers(A, c) =>
      if y.a.peer.None? then y
      else y.(a := y.a.(outbox := y.a.outbox + [PeerManager.IceMsg(Some(c))]), fromA := y.fromA + multiset{c})
    case Gathers(B, c) =>
      if y.b.peer.None? then y
      else y.(b := y.b.(outbox := y.b.outbox + [PeerManager.IceMsg(Some(c))]), fromB := y.fromB + multiset{c})
    case UserDoes(A, action) => y.(a := Acted(y.a, n.q, action))
    case UserDoes(B, action) => y.(b := Acted(y.b, n.p, action))
  }

  /** Leaving destroys the peer; nothing else the user does touches it. */
  function Acted(e: End, other: RowId, action: MeetingRoom.Action): End {
    var client := MeetingRoom.Act(e.client, action);
    e.(client := client, peer := if other in client.mesh.roles then e.peer else None)
  }

  function Play(n: Names, y: Link, moves: seq<Move>): Link {
    if moves == [] then y else Make(n, Play(n, y, moves[..|moves| - 1]), moves[|moves| - 1])
  }

  // --- The two sides as a glare play ----------------------------------------------------------------

  function Unread(s: State, c: ConnId, read: nat, from: RowId): seq<Message> {
    var wire := Wire(s, c);
    if read <= |wire| then Seen(wire[read..], from) else []
  }

  /**
   * The play this is a picture of. What is on its way from one side to the other is what the other's log
   * holds unread, then what the server has yet to receive. A peer not met yet counts as new.
   */
  function Picture(n: Names, y: Link): Glare.Pair {
    Glare.Pair(if y.a.peer.Some? then y.a.peer.value else Glare.Fresh(true),
               if y.b.peer.Some? then y.b.peer.value else Glare.Fresh(false),
               Unread(y.server, n.c, y.a.read, n.q) + y.b.outbox,
               Unread(y.server, n.d, y.b.read, n.p) + y.a.outbox,
               y.minted, y.fromA, y.fromB)
  }

  ghost predicate AllWellFormed(ms: seq<Message>) {
    forall i :: 0 <= i < |ms| ==> WellFormed(ms[i])
  }

  /** Some run of the server leads here. */
  ghost predicate Reached(s: State) {
    exists steps :: s == Run(steps)
  }

  lemma ReachedIsOk(s: State)
    requires Reached(s)
    ensures Invariant(s) && Mannered(s)
  {
    hide Exec;
    hide Invariant;
    hide Mannered;
    var steps :| s == Run(steps);
    Reachable(steps);
    EveryRunIsMannered(steps);
  }

  lemma ReachedOn(s: State, step: Step)
    requires Reached(s)
    ensures Reached(Apply(s, step))
  {
    hide Run;
    hide Apply;
    var steps :| s == Run(steps);
    RunStep(steps, step);
  }

  /** What the server guarantees, and what is assumed of the two: rows open, one socket each. */
  ghost predicate ServerOk(n: Names, s: State) {
    && Reached(s) && Initiator.Pair(s, n.c, n.d)
    && s.sockets[n.c].participantId == n.p && s.sockets[n.d].participantId == n.q && n.p < n.c < n.q
  }

  /** The first side has met the other exactly if it has read the arrival, at index `k` of its log. */
  ghost predicate EndAOk(n: Names, s: State, a: End, k: nat) {
    && !a.client.left && a.read <= |Wire(s, n.c)| && AllWellFormed(a.outbox)
    && k < |Wire(s, n.c)| && IsArrival(Wire(s, n.c)[k], n.q)
    && (a.read <= k ==> n.q !in a.client.mesh.roles && a.peer.None? && a.outbox == [])
    && (a.read > k ==> n.q in a.client.mesh.roles && a.peer.Some?)
  }

  /** The second side has met the other exactly if it has read its snapshot. */
  ghost predicate EndBOk(n: Names, s: State, b: End) {
    && !b.client.left && b.read <= |Wire(s, n.d)| && AllWellFormed(b.outbox)
    && (b.read == 0 ==> n.p !in b.client.mesh.roles && b.peer.None? && b.outbox == [])
    && (b.read > 0 ==> n.p in b.client.mesh.roles && b.peer.Some?)
  }

  ghost predicate LinkOk(n: Names, y: Link, k: nat) {
    ServerOk(n, y.server) && EndAOk(n, y.server, y.a, k) && EndBOk(n, y.server, y.b)
  }

  // --- Messages stay well-formed ----------------------------------------------------------------------

  lemma ReplyIsWellFormed(p: Peer, m: Message, k: nat)
    ensures AllWellFormed(Glare.React(p, m, Sdp(AnAnswer, k)).replies)
  {
  }

  // --- The server's part ------------------------------------------------------------------------------

  /** What holds of the server from the start on, whatever happens. */
  ghost predicate Base(n: Names, s: State) {
    && Reached(s) && n.c in s.sockets && n.d in s.sockets
    && s.sockets[n.c].participantId == n.p && s.sockets[n.d].participantId == n.q && n.p < n.c < n.q
  }

  lemma BaseKept(n: Names, s: State, step: Step)
    requires Base(n, s)
    ensures Base(n, Apply(s, step))
  {
    hide Reached;
    hide Invariant;
    hide Mannered;
    hide Apply;
    ReachedIsOk(s);
    ReachedOn(s, step);
    ApplyKeeps(s, step);
    Replica.StepCarries(s, step);
  }

  /** Two sockets that are sole, with open rows, after a step were so before it. */
  lemma PairBefore(n: Names, s: State, step: Step)
    requires Base(n, s) && Initiator.Pair(Apply(s, step), n.c, n.d)
    ensures Initiator.Pair(s, n.c, n.d)
  {
    hide Reached;
    hide Invariant;
    hide Mannered;
    hide Apply;
    var t := Apply(s, step);
    ReachedIsOk(s);
    ApplyKeeps(s, step);
    Replica.StepCarries(s, step);
    SocketsHaveRows(s);

    SoleIsOlder(s, t, n.c);
    SoleIsOlder(s, t, n.d);
  }

  lemma SocketsHaveRows(s: State)
    requires Invariant(s)
    ensures forall c :: c in s.sockets ==> s.sockets[c].participantId in s.db.rows
  {
  }

  lemma SoleIsOlder(s: State, t: State, c: ConnId)
    requires Replica.Carried(s, t) && Sole(t, c) && c in s.sockets
    ensures Sole(s, c)
  {
    forall d | d in s.sockets && s.sockets[d].participantId == s.sockets[c].participantId ensures d == c {
      assert t.sockets[d] == s.sockets[d];
    }
  }

  /** Growth without signals of the other changes nothing of what is unread. */
  lemma {:induction false} UnreadKept(s: State, t: State, c: ConnId, read: nat, r: RowId)
    requires c in s.wires && c in t.wires && s.wires[c] <= t.wires[c] && Seen(Growth(s, t, c), r) == []
    requires read <= |s.wires[c]|
    ensures Unread(t, c, read, r) == Unread(s, c, read, r)
  {
    assert t.wires[c] == s.wires[c] + Growth(s, t, c);
    assert t.wires[c][read..] == s.wires[c][read..] + Growth(s, t, c);
    SeenAppends(s.wires[c][read..], Growth(s, t, c), r);
  }

  lemma EndsCarried(n: Names, s: State, t: State, a: End, b: End, k: nat)
    requires EndAOk(n, s, a, k) && EndBOk(n, s, b)
    requires Wire(s, n.c) <= Wire(t, n.c) && Wire(s, n.d) <= Wire(t, n.d)
    ensures EndAOk(n, t, a, k) && EndBOk(n, t, b)
  {
  }

  lemma ServeKeeps(n: Names, y: Link, step: Step, k: nat)
    requires LinkOk(n, y, k) && !Ours(n, step) && ServerOk(n, Apply(y.server, step))
    ensures var z := Make(n, y, Serve(step)); LinkOk(n, z, k) && Picture(n, z) == Picture(n, y)
  {
    hide Apply;
    hide Reached;
    hide Invariant;
    hide Mannered;
    hide Unread;
    hide EndAOk;
    hide EndBOk;
    var s, t := y.server, Apply(y.server, step);
    ReachedIsOk(s);

    UnsignalledGrowth(s, step, n.p, n.d);
    UnsignalledGrowth(s, step, n.q, n.c);
    ReadIsWithin(n, s, y.a, y.b, k);
    UnreadKept(s, t, n.d, y.b.read, n.p);
    UnreadKept(s, t, n.c, y.a.read, n.q);
    EndsCarried(n, s, t, y.a, y.b, k);
  }

  lemma ReadIsWithin(n: Names, s: State, a: End, b: End, k: nat)
    requires EndAOk(n, s, a, k) && EndBOk(n, s, b)
    ensures a.read <= |Wire(s, n.c)| && b.read <= |Wire(s, n.d)| && AllWellFormed(a.outbox) && AllWellFormed(b.outbox)
  {
  }

  // --- The clients' part -----------------------------------------------------------------------------

  lemma {:induction false} ChannelKept(wire: seq<ServerFrame>, f: ServerFrame, read: nat,
      r: RowId, outbox: seq<Message>)
    requires read <= |wire| && outbox != [] && IsSignalOf(f, r) && Decoded(f.kind, f.payload) == outbox[0]
    ensures Seen((wire + [f])[read..], r) + outbox[1..] == Seen(wire[read..], r) + outbox
  {
    assert (wire + [f])[read..] == wire[read..] + [f];
    SeenAppends(wire[read..], [f], r);
    OneSeen(f, r);
    assert [outbox[0]] + outbox[1..] == outbox;
    hide Seen;
    assert Seen(wire[read..], r) + [outbox[0]] + outbox[1..] == Seen(wire[read..], r) + outbox;
  }

  /** The oldest signal of one side moves from its outbox to the end of the other's log: the channel is the same. */
  lemma RelayMoves(s: State, c: ConnId, d: ConnId, read: nat, outbox: seq<Message>)
    requires Reached(s) && Together(s, c, d) && Sole(s, c) && Sole(s, d) && c != d
    requires Open(s, s.sockets[c].participantId) && Open(s, s.sockets[d].participantId)
    requires outbox != [] && WellFormed(outbox[0]) && read <= |Wire(s, d)|
    ensures var p, q := s.sockets[c].participantId, s.sockets[d].participantId;
            var t := Received(s, c, q, outbox[0]);
            && Unread(t, d, read, p) + outbox[1..] == Unread(s, d, read, p) + outbox
            && Wire(t, c) == Wire(s, c) && Wire(s, d) <= Wire(t, d)
            && t == s.(wires := t.wires)
  {
    hide Apply;
    hide Reached;
    hide Invariant;
    hide Mannered;
    hide Sole;
    hide Encoded;
    hide Decoded;
    hide Seen;
    var p, q := s.sockets[c].participantId, s.sockets[d].participantId;
    var f := Encoded(q, outbox[0]);
    ReachedIsOk(s);
    SocketsHaveLogs(s);
    BoundFromManners(s);
    DecodedIsEncoded(q, outbox[0]);
    RelayGoesThrough(s, c, d, f.kind, f.payload);
    ChannelKept(s.wires[d], Relayed(f.kind, p, f.payload), read, p, outbox);
  }

  lemma BoundFromManners(s: State)
    requires Mannered(s)
    ensures BoundTotal(s)
  {
  }

  lemma ForwardAKeeps(n: Names, y: Link, k: nat)
    requires LinkOk(n, y, k) && Base(n, Make(n, y, Forward(Glare.A)).server)
    ensures var z := Make(n, y, Forward(Glare.A)); LinkOk(n, z, k) && Picture(n, z) == Picture(n, y)
  {
    hide Apply;
    hide Reached;
    hide Invariant;
    hide Mannered;
    hide Unread;
    hide Received;
    hide Sole;
    if y.a.outbox != [] {
      var s := y.server;
      var t := Received(s, n.c, n.q, y.a.outbox[0]);
      RelayMoves(s, n.c, n.d, y.b.read, y.a.outbox);
      SameWireSameUnread(s, t, n.c, y.a.read, n.q);
      SameServer(n, s, t);
    }
  }

  lemma ForwardBKeeps(n: Names, y: Link, k: nat)
    requires LinkOk(n, y, k) && Base(n, Make(n, y, Forward(Glare.B)).server)
    ensures var z := Make(n, y, Forward(Glare.B)); LinkOk(n, z, k) && Picture(n, z) == Picture(n, y)
  {
    hide Apply;
    hide Reached;
    hide Invariant;
    hide Mannered;
    hide Unread;
    hide Received;
    hide Sole;
    if y.b.outbox != [] {
      var s := y.server;
      var t := Received(s, n.d, n.p, y.b.outbox[0]);
      RelayMoves(s, n.d, n.c, y.a.read, y.b.outbox);
      SameWireSameUnread(s, t, n.d, y.b.read, n.p);
      SameServer(n, s, t);
    }
  }

  lemma SameWireSameUnread(s: State, t: State, c: ConnId, read: nat, r: RowId)
    requires Wire(t, c) == Wire(s, c)
    ensures Unread(t, c, read, r) == Unread(s, c, read, r)
  {
  }

  /** Sending frames changes nothing of who is in the room. */
  lemma SameServer(n: Names, s: State, t: State)
    requires ServerOk(n, s) && t == s.(wires := t.wires) && Base(n, t)
    ensures ServerOk(n, t)
  {
    hide Reached;
    hide Invariant;
    hide Mannered;
    assert forall c :: Sole(t, c) == Sole(s, c);
  }

  // --- Reading -----------------------------------------------------------------------------------------

  lemma ServerFacts(n: Names, s: State, k: nat)
    requires ServerOk(n, s) && k < |Wire(s, n.c)| && IsArrival(Wire(s, n.c)[k], n.q)
    ensures IntroducedAt(Wire(s, n.c), n.q, k) && n.p != n.q
    ensures forall i :: 0 <= i < |Wire(s, n.c)| ==> !Lists(Wire(s, n.c)[i], n.q) && !IsDeparture(Wire(s, n.c)[i], n.q)
    ensures SnapshotFirst(Wire(s, n.d), n.q) && Lists(Wire(s, n.d)[0], n.p)
    ensures forall i :: 0 <= i < |Wire(s, n.d)| ==> !IsDeparture(Wire(s, n.d)[i], n.p)
    ensures n.c in s.wires && n.d in s.wires
  {
    hide LifecycleProofs.Invariant;
    hide RoomsOk;
    hide BoundOk;
    hide StrangersOk;
    hide BoundTotal;
    hide Sole;
    hide Reached;
    hide Lists;
    ReachedIsOk(s);
    assert Introduced(s.wires[n.c], n.q);
    Initiator.UnlistedElsewhere(s, n.c, n.q);
  }

  lemma UnreadStep(s: State, c: ConnId, read: nat, r: RowId)
    requires read < |Wire(s, c)|
    ensures var f := Wire(s, c)[read];
            Unread(s, c, read, r) ==
                (if IsSignalOf(f, r) then [Decoded(f.kind, f.payload)] else []) + Unread(s, c, read + 1, r)
  {
    var wire := Wire(s, c);
    assert wire[read..] == [wire[read]] + wire[read + 1..];
    SeenAppends([wire[read]], wire[read + 1..], r);
    OneSeen(wire[read], r);
  }

  /** A client that knows the other goes on knowing it; its peer hears the other's signals and nothing else. */
  lemma KnownRead(e: End, other: RowId, f: ServerFrame, minted: nat)
    requires !e.client.left && !MeetingRoom.Dispatch(e.client, f).left
    requires other in e.client.mesh.roles && e.peer.Some? && !IsDeparture(f, other)
    ensures var h := HandleFrame(e, other, f, minted);
            && h.end.client == MeetingRoom.Dispatch(e.client, f) && other in h.end.client.mesh.roles
            && h.end.read == e.read + 1
            && if IsSignalOf(f, other) then
                 var r := Glare.React(e.peer.value, Decoded(f.kind, f.payload), Sdp(AnAnswer, minted));
                 h.end.peer == Some(r.peer) && h.end.outbox == e.outbox + r.replies && h.minted == minted + 1
               else h.end.peer == e.peer && h.end.outbox == e.outbox && h.minted == minted
  {
    hide MeetingRoom.Dispatch;
    hide Glare.React;
    hide Glare.MakeOffer;
    Initiator.KnownStaysKnown(e.client, f, other);
  }

  /** A frame that does not concern a stranger leaves it one. */
  lemma StrangerRead(e: End, other: RowId, f: ServerFrame, minted: nat)
    requires !e.client.left && !MeetingRoom.Dispatch(e.client, f).left && other !in e.client.mesh.roles
    requires !Lists(f, other) && !IsArrival(f, other) && !IsSignalOf(f, other) && !IsDeparture(f, other)
    ensures var client := MeetingRoom.Dispatch(e.client, f);
            && other !in client.mesh.roles
            && HandleFrame(e, other, f, minted) == Handled(End(client, None, e.outbox, e.read + 1), minted)
  {
    hide MeetingRoom.Dispatch;
    Initiator.OthersDoNotMatter(e.client, f, other);
  }

  /** The arrival of a stranger makes it a peer this side drives, and the offer is made. */
  lemma ArrivalRead(e: End, other: RowId, f: ServerFrame, minted: nat)
    requires !e.client.left && other !in e.client.mesh.roles && IsArrival(f, other)
    ensures var client := MeetingRoom.Dispatch(e.client, f);
            var r := Glare.MakeOffer(Glare.Fresh(true), Sdp(AnOffer, minted));
            && !client.left && other in client.mesh.roles
            && HandleFrame(e, other, f, minted) ==
                Handled(End(client, Some(r.peer), e.outbox + r.replies, e.read + 1), minted + 1)
  {
    hide Glare.MakeOffer;
  }

  lemma {:induction false} SnapshotMakesPassive(m: MeetingRoom.Mesh, entries: seq<RosterEntry>, you: RowId, r: RowId)
    requires r !in m.roles && r in MeetingRoom.AddPeers(m, entries, you).roles
    ensures !MeetingRoom.AddPeers(m, entries, you).roles[r]
  {
    if entries != [] {
      var n := |entries| - 1;
      if r in MeetingRoom.AddPeers(m, entries[..n], you).roles {
        SnapshotMakesPassive(m, entries[..n], you, r);
      }
    }
  }

  /** Listed in the snapshot, a stranger becomes a peer the other side drives. */
  lemma SnapshotRead(e: End, other: RowId, f: ServerFrame, minted: nat)
    requires !e.client.left && other !in e.client.mesh.roles && Lists(f, other) && f.you.id != other
    ensures var client := MeetingRoom.Dispatch(e.client, f);
            && !client.left && other in client.mesh.roles
            && HandleFrame(e, other, f, minted) ==
                Handled(End(client, Some(Glare.Fresh(false)), e.outbox, e.read + 1), minted)
  {
    hide Glare.MakeOffer;
    hide Glare.React;
    Initiator.SnapshotMakesKnown(e.client, f, other);
    SnapshotMakesPassive(e.client.mesh, f.participants, f.you.id, other);
  }

  /** The move is one client's handling of a signal of the other. */
  predicate Handling(n: Names, y: Link, move: Move) {
    match move
    case Read(A) => y.a.read < |Wire(y.server, n.c)| && IsSignalOf(Wire(y.server, n.c)[y.a.read], n.q)
    case Read(B) => y.b.read < |Wire(y.server, n.d)| && IsSignalOf(Wire(y.server, n.d)[y.b.read], n.p)
    case _ => false
  }

  /** The play's move that a move of the whole amounts to, if any: a delivery exactly if a signal is handled. */
  ghost predicate Follows(n: Names, y: Link, z: Link, handled: bool) {
    || (!handled && Picture(n, z) == Picture(n, y))
    || exists g: Glare.Move ::
         && Picture(n, z) == Glare.Make(Picture(n, y), g) && !g.Offers?
         && (Glare.Delivering(Picture(n, y), g) <==> handled)
  }

  lemma ReadAKeeps(n: Names, y: Link, k: nat)
    requires LinkOk(n, y, k) && !Make(n, y, Read(Glare.A)).a.client.left
    ensures var z := Make(n, y, Read(Glare.A));
            && LinkOk(n, z, k)
            && if y.a.read <= k < z.a.read then
                 !Handling(n, y, Read(Glare.A)) && Picture(n, z) == Glare.Make(Picture(n, y), Glare.Offers(Glare.A))
               else Follows(n, y, z, Handling(n, y, Read(Glare.A)))
  {
    hide Reached;
    hide Invariant;
    hide Mannered;
    hide ServerOk;
    hide MeetingRoom.Dispatch;
    hide HandleFrame;
    hide Unread;
    hide Glare.React;
    var wire := Wire(y.server, n.c);
    if y.a.read < |wire| {
      var f := wire[y.a.read];
      var z := Make(n, y, Read(Glare.A));
      ServerFacts(n, y.server, k);
      UnreadStep(y.server, n.c, y.a.read, n.q);
      assert z.a.client == MeetingRoom.Dispatch(y.a.client, f) by { HandledClient(y.a, n.q, f, y.minted); }
      if y.a.read < k {
        StrangerRead(y.a, n.q, f, y.minted);
      } else if y.a.read == k {
        ArrivalRead(y.a, n.q, f, y.minted);
        assert y.a.outbox + Glare.MakeOffer(Glare.Fresh(true), Sdp(AnOffer, y.minted)).replies
            == Glare.MakeOffer(Glare.Fresh(true), Sdp(AnOffer, y.minted)).replies;
        assert Picture(n, z) == Glare.Make(Picture(n, y), Glare.Offers(Glare.A));
      } else {
        KnownRead(y.a, n.q, f, y.minted);
        if IsSignalOf(f, n.q) {
          var m := Decoded(f.kind, f.payload);
          ReplyIsWellFormed(y.a.peer.value, m, y.minted);
          DeliveredToA(n, y, z, m);
        }
      }
    }
  }

  lemma HandledClient(e: End, other: RowId, f: ServerFrame, minted: nat)
    ensures HandleFrame(e, other, f, minted).end.client == MeetingRoom.Dispatch(e.client, f)
  {
    hide MeetingRoom.Dispatch;
    hide Glare.React;
    hide Glare.MakeOffer;
  }

  lemma DeliveredToA(n: Names, y: Link, z: Link, m: Message)
    requires y.a.peer.Some?
    requires var r := Glare.React(y.a.peer.value, m, Sdp(AnAnswer, y.minted));
             && z == y.(a := z.a, minted := y.minted + 1)
             && z.a.peer == Some(r.peer) && z.a.outbox == y.a.outbox + r.replies
    requires Unread(y.server, n.c, y.a.read, n.q) == [m] + Unread(z.server, n.c, z.a.read, n.q)
    ensures Picture(n, z) == Glare.Make(Picture(n, y), Glare.Delivers(Glare.A))
    ensures Glare.Delivering(Picture(n, y), Glare.Delivers(Glare.A))
  {
    hide Unread;
    hide Glare.React;
    var rest := Unread(z.server, n.c, z.a.read, n.q);
    assert ([m] + rest + y.b.outbox)[0] == m && ([m] + rest + y.b.outbox)[1..] == rest + y.b.outbox;
    var r := Glare.React(y.a.peer.value, m, Sdp(AnAnswer, y.minted));
    var back := Unread(y.server, n.d, y.b.read, n.p);
    assert back + y.a.outbox + r.replies == back + (y.a.outbox + r.replies);
  }

  lemma DeliveredToB(n: Names, y: Link, z: Link, m: Message)
    requires y.b.peer.Some?
    requires var r := Glare.React(y.b.peer.value, m, Sdp(AnAnswer, y.minted));
             && z == y.(b := z.b, minted := y.minted + 1)
             && z.b.peer == Some(r.peer) && z.b.outbox == y.b.outbox + r.replies
    requires Unread(y.server, n.d, y.b.read, n.p) == [m] + Unread(z.server, n.d, z.b.read, n.p)
    ensures Picture(n, z) == Glare.Make(Picture(n, y), Glare.Delivers(Glare.B))
    ensures Glare.Delivering(Picture(n, y), Glare.Delivers(Glare.B))
  {
    hide Unread;
    hide Glare.React;
    var rest := Unread(z.server, n.d, z.b.read, n.p);
    assert ([m] + rest + y.a.outbox)[0] == m && ([m] + rest + y.a.outbox)[1..] == rest + y.a.outbox;
    var r := Glare.React(y.b.peer.value, m, Sdp(AnAnswer, y.minted));
    var back := Unread(y.server, n.c, y.a.read, n.q);
    assert back + y.b.outbox + r.replies == back + (y.b.outbox + r.replies);
  }

  lemma ReadBKeeps(n: Names, y: Link, k: nat)
    requires LinkOk(n, y, k) && !Make(n, y, Read(Glare.B)).b.client.left
    ensures var z := Make(n, y, Read(Glare.B)); LinkOk(n, z, k) && Follows(n, y, z, Handling(n, y, Read(Glare.B)))
  {
    hide Reached;
    hide Invariant;
    hide Mannered;
    hide ServerOk;
    hide MeetingRoom.Dispatch;
    hide HandleFrame;
    hide Unread;
    hide Glare.React;
    var wire := Wire(y.server, n.d);
    if y.b.read < |wire| {
      var f := wire[y.b.read];
      var z := Make(n, y, Read(Glare.B));
      ServerFacts(n, y.server, k);
      UnreadStep(y.server, n.d, y.b.read, n.p);
      assert z.b.client == MeetingRoom.Dispatch(y.b.client, f) by { HandledClient(y.b, n.p, f, y.minted); }
      if y.b.read == 0 {
        SnapshotRead(y.b, n.p, f, y.minted);
      } else {
        KnownRead(y.b, n.p, f, y.minted);
        if IsSignalOf(f, n.p) {
          var m := Decoded(f.kind, f.payload);
          ReplyIsWellFormed(y.b.peer.value, m, y.minted);
          DeliveredToB(n, y, z, m);
        }
      }
    }
  }

  lemma GathersAKeeps(n: Names, y: Link, c: Candidate, k: nat)
    requires LinkOk(n, y, k)
    ensures var z := Make(n, y, Gathers(Glare.A, c)); LinkOk(n, z, k) && Follows(n, y, z, false)
  {
    hide Reached;
    hide Invariant;
    hide Mannered;
    hide ServerOk;
    hide EndBOk;
    hide Unread;
    var z := Make(n, y, Gathers(Glare.A, c));
    var ice := [PeerManager.IceMsg(Some(c))];
    var toB := Unread(y.server, n.d, y.b.read, n.p);
    assert toB + y.a.outbox + ice == toB + (y.a.outbox + ice);
    if z != y {
      assert Picture(n, z) == Glare.Make(Picture(n, y), Glare.Move.Gathers(Glare.A, c));
    }
  }

  lemma GathersBKeeps(n: Names, y: Link, c: Candidate, k: nat)
    requires LinkOk(n, y, k)
    ensures var z := Make(n, y, Gathers(Glare.B, c)); LinkOk(n, z, k) && Follows(n, y, z, false)
  {
    hide Reached;
    hide Invariant;
    hide Mannered;
    hide ServerOk;
    hide EndAOk;
    hide Unread;
    var z := Make(n, y, Gathers(Glare.B, c));
    var ice := [PeerManager.IceMsg(Some(c))];
    var toA := Unread(y.server, n.c, y.a.read, n.q);
    assert toA + y.b.outbox + ice == toA + (y.b.outbox + ice);
    if z != y {
      assert Picture(n, z) == Glare.Make(Picture(n, y), Glare.Move.Gathers(Glare.B, c));
    }
  }

  lemma ActingKeeps(n: Names, y: Link, side: Glare.Side, action: MeetingRoom.Action, k: nat)
    requires LinkOk(n, y, k)
    requires var z := Make(n, y, UserDoes(side, action)); !z.a.client.left && !z.b.client.left
    ensures var z := Make(n, y, UserDoes(side, action)); LinkOk(n, z, k) && Picture(n, z) == Picture(n, y)
  {
    hide Reached;
    hide Invariant;
    hide Mannered;
    hide ServerOk;
    hide Unread;
    hide MeetingRoom.Act;
    Initiator.UserDoesNotMatter(y.a.client, action, n.q);
    Initiator.UserDoesNotMatter(y.b.client, action, n.p);
  }

  // --- Whole runs -------------------------------------------------------------------------------------

  /** Both rows are open, each with its one socket, and both clients are in the room. */
  ghost predicate StillTogether(n: Names, y: Link) {
    Initiator.Pair(y.server, n.c, n.d) && !y.a.client.left && !y.b.client.left
  }

  lemma ServerMoves(n: Names, y: Link, move: Move)
    ensures var t := Make(n, y, move).server;
            t == y.server || exists step :: t == Apply(y.server, step)
  {
    hide Apply;
    hide HandleFrame;
    hide Acted;
  }

  lemma ClientsMove(n: Names, y: Link, move: Move)
    requires y.a.client.left || y.b.client.left
    ensures Make(n, y, move).a.client.left || Make(n, y, move).b.client.left
  {
    hide Received;
    hide Apply;
    hide HandleFrame;
    match move {
      case Read(side) =>
        var e := if side == Glare.A then y.a else y.b;
        var wire := Wire(y.server, if side == Glare.A then n.c else n.d);
        var other := if side == Glare.A then n.q else n.p;
        if e.read < |wire| {
          HandledClient(e, other, wire[e.read], y.minted);
        }
      case _ =>
    }
  }

  lemma TogetherBefore(n: Names, y: Link, move: Move)
    requires Base(n, y.server) && StillTogether(n, Make(n, y, move))
    ensures StillTogether(n, y) && Base(n, Make(n, y, move).server)
  {
    hide Base;
    hide Initiator.Pair;
    hide Make;
    hide Apply;
    ServerMoves(n, y, move);
    var t := Make(n, y, move).server;
    if t != y.server {
      var step :| t == Apply(y.server, step);
      PairBefore(n, y.server, step);
      BaseKept(n, y.server, step);
    }
    if y.a.client.left || y.b.client.left { ClientsMove(n, y, move); }
  }

  /** The second has just connected; the first has not read that far, and neither knows the other. */
  ghost predicate Begins(n: Names, y: Link, steps: seq<Step>, number: MeetingId) {
    && y.server == Run(steps + [Connect(number, n.q)]) && n.d == Run(steps).next && n.d in y.server.sockets
    && StillTogether(n, y) && y.server.sockets[n.c].participantId == n.p && n.c < n.q
    && n.q !in y.a.client.mesh.roles && y.a.peer.None? && y.a.outbox == [] && y.a.read < |Wire(y.server, n.c)|
    && n.p !in y.b.client.mesh.roles && y.b.peer.None? && y.b.outbox == [] && y.b.read == 0
    && y.minted == 0 && y.fromA == multiset{} && y.fromB == multiset{}
  }

  /** The index of the arrival in the first one's log: it is the last frame there at the start. */
  function ArrivalIndex(n: Names, y: Link): int {
    |Wire(y.server, n.c)| - 1
  }

  lemma ConnectReaches(n: Names, y: Link, steps: seq<Step>, number: MeetingId)
    requires Begins(n, y, steps, number)
    ensures var s := Run(steps);
            && Invariant(s) && Mannered(s) && y.server == ConnectSocket(s, number, n.q) && s.next == n.d
            && n.p < n.c && n.q < n.d
    ensures Reached(y.server)
  {
    hide Invariant;
    hide ConnectSocket;
    hide ShapesOk;
    hide SnapshotsOk;
    hide DeparturesOk;
    hide StrangersOk;
    hide BoundTotal;
    hide IntroductionsOk;
    hide Open;
    hide Together;
    hide Serialize;
    hide ActiveRoster;
    var step := Connect(number, n.q);
    Reachable(steps);
    EveryRunIsMannered(steps);
    Initiator.RowsPrecedeSockets(steps + [step]);
    ConnectAdmitsRow(Run(steps), number, n.q);
  }

  lemma ConnectAdmitsRow(s: State, number: MeetingId, session: RowId)
    requires Invariant(s)
    ensures var t := ConnectSocket(s, number, session);
            s.next in t.sockets ==>
              && session in s.db.rows && Admission(s, t, s.db.rows[session])
              && t.sockets[s.next].participantId == session
              && t.sockets[s.next].meetingId == s.db.rows[session].meetingId
  {
    hide LifecycleProofs.Invariant;
    hide RoomsOk;
    hide ConnectSocket;
    hide ActiveRoster;
    ConnectAdmits(s, number, session);
    InvariantFacts(s);
  }

  /** An admission ends the log of a sole socket of the meeting with the arrival. */
  lemma ArrivalIsAppended(s: State, t: State, p: Participant, c: ConnId)
    requires Admission(s, t, p) && SocketsOk(s) && BoundOk(s) && BoundTotal(s)
    requires Sole(t, c) && c in s.sockets && c in s.wires && Open(t, t.sockets[c].participantId)
    requires s.sockets[c].meetingId == p.meetingId
    ensures t.wires[c] == s.wires[c] + [PeerJoined(Serialize(p))]
  {
    hide ActiveRoster;
    hide Serialize;
    SoleBefore(s, t, p, c);
    assert Open(s, s.sockets[c].participantId);
  }

  /** The connect of the second ends the first one's log with its arrival. */
  lemma ArrivalIsLast(n: Names, y: Link, steps: seq<Step>, number: MeetingId)
    requires Begins(n, y, steps, number)
    ensures Base(n, y.server)
    ensures var w := Wire(y.server, n.c); w != [] && IsArrival(w[|w| - 1], n.q)
    ensures |Wire(y.server, n.d)| == 1 && Wire(y.server, n.d)[0].RoomState?
  {
    hide LifecycleProofs.Invariant;
    hide RoomsOk;
    hide ConnectSocket;
    hide ActiveRoster;
    hide ShapesOk;
    hide SnapshotsOk;
    hide DeparturesOk;
    hide StrangersOk;
    hide IntroductionsOk;
    hide Run;
    hide Reached;
    var s, t := Run(steps), y.server;
    ConnectReaches(n, y, steps, number);
    ConnectAdmitsRow(s, number, n.q);
    ArrivalIsAppended(s, t, s.db.rows[n.q], n.c);
  }

  lemma BeginsAsFacing(n: Names, y: Link, steps: seq<Step>, number: MeetingId)
    requires Begins(n, y, steps, number)
    ensures Base(n, y.server)
    ensures ArrivalIndex(n, y) >= 0 && LinkOk(n, y, ArrivalIndex(n, y)) && Picture(n, y) == Glare.Facing(true, false)
  {
    hide Reached;
    hide Invariant;
    hide Mannered;
    hide Initiator.Pair;
    hide Run;
    ArrivalIsLast(n, y, steps, number);
    var k := ArrivalIndex(n, y);
    var w := Wire(y.server, n.c);
    ServerFacts(n, y.server, k);
    NothingSeen(w[y.a.read..], n.q);
    NothingSeen(Wire(y.server, n.d)[0..], n.p);
  }

  /**
   * The whole is a picture of a play of two sides, in which the first has offered once, when it met the other,
   * nobody else has offered, and as many signals have been delivered as were handled.
   */
  ghost predicate Simulated(n: Names, y: Link, met: bool, handled: nat) {
    exists g: seq<Glare.Move> ::
      && Glare.Play(Glare.Facing(true, false), g) == Picture(n, y) && Tallies(g, met, handled)
  }

  ghost predicate Tallies(g: seq<Glare.Move>, met: bool, handled: nat) {
    && (met ==> Glare.Offers(Glare.A) in g) && Glare.OffersIn(g) == (if met then 1 else 0)
    && Glare.Deliveries(Glare.Facing(true, false), g) == handled
  }

  lemma SimulatedOn(n: Names, y: Link, z: Link, met: bool, handled: nat, one: bool)
    requires Simulated(n, y, met, handled) && Follows(n, y, z, one)
    ensures Simulated(n, z, met, handled + if one then 1 else 0)
  {
    hide Picture;
    hide Glare.Make;
    hide Glare.Delivering;
    if one || Picture(n, z) != Picture(n, y) {
      var g: seq<Glare.Move> :| Glare.Play(Glare.Facing(true, false), g) == Picture(n, y) && Tallies(g, met, handled);
      var m: Glare.Move :| Picture(n, z) == Glare.Make(Picture(n, y), m) && !m.Offers?
                           && (Glare.Delivering(Picture(n, y), m) <==> one);
      assert (g + [m])[..|g|] == g && (g + [m])[|g|] == m;
      assert Glare.Play(Glare.Facing(true, false), g + [m]) == Picture(n, z);
      assert Tallies(g + [m], met, handled + if one then 1 else 0);
    }
  }

  lemma SimulatedByOffer(n: Names, y: Link, z: Link, handled: nat)
    requires Simulated(n, y, false, handled)
    requires Picture(n, z) == Glare.Make(Picture(n, y), Glare.Offers(Glare.A))
    ensures Simulated(n, z, true, handled)
  {
    hide Picture;
    hide Glare.Make;
    var g: seq<Glare.Move> :| Glare.Play(Glare.Facing(true, false), g) == Picture(n, y) && Tallies(g, false, handled);
    var m := Glare.Offers(Glare.A);
    assert (g + [m])[..|g|] == g && (g + [m])[|g|] == m;
    assert Glare.Play(Glare.Facing(true, false), g + [m]) == Picture(n, z);
    assert Tallies(g + [m], true, handled);
  }

  lemma MoveKeeps(n: Names, y: Link, move: Move, k: nat)
    requires LinkOk(n, y, k) && StillTogether(n, Make(n, y, move)) && Base(n, Make(n, y, move).server)
    ensures var z := Make(n, y, move);
            && LinkOk(n, z, k) && y.a.read <= z.a.read
            && if y.a.read <= k < z.a.read then
                 !Handling(n, y, move) && Picture(n, z) == Glare.Make(Picture(n, y), Glare.Offers(Glare.A))
               else Follows(n, y, z, Handling(n, y, move))
  {
    hide LinkOk;
    hide Picture;
    hide Glare.Make;
    hide Received;
    hide HandleFrame;
    hide Apply;
    hide Reached;
    hide Invariant;
    hide Mannered;
    hide Initiator.Pair;
    match move {
      case Serve(step) =>
        if !Ours(n, step) { ServeKeeps(n, y, step, k); }
      case Forward(side) => if side == Glare.A { ForwardAKeeps(n, y, k); } else { ForwardBKeeps(n, y, k); }
      case Read(side) =>
        if side == Glare.A { ReadAKeeps(n, y, k); ReadAdvances(n, y); } else { ReadBKeeps(n, y, k); }
      case Gathers(side, c) => if side == Glare.A { GathersAKeeps(n, y, c, k); } else { GathersBKeeps(n, y, c, k); }
      case UserDoes(side, action) => ActingKeeps(n, y, side, action, k);
    }
  }

  lemma ReadAdvances(n: Names, y: Link)
    ensures y.a.read <= Make(n, y, Read(Glare.A)).a.read
  {
    hide MeetingRoom.Dispatch;
    hide Glare.React;
    hide Glare.MakeOffer;
  }

  /** The signals the two clients have handled of each other. */
  function SignalsHandled(n: Names, y: Link, moves: seq<Move>): nat {
    if moves == [] then 0
    else
      var front := moves[..|moves| - 1];
      SignalsHandled(n, y, front) + if Handling(n, Play(n, y, front), moves[|moves| - 1]) then 1 else 0
  }

  /** Every run of the whole, while the two stay together, is a play over first-in first-out channels. */
  lemma {:induction false} EveryRunIsAPlay(n: Names, y: Link, steps: seq<Step>, number: MeetingId, moves: seq<Move>)
    requires Begins(n, y, steps, number) && StillTogether(n, Play(n, y, moves))
    ensures var z, k := Play(n, y, moves), ArrivalIndex(n, y);
            && k >= 0 && Base(n, z.server) && LinkOk(n, z, k)
            && Simulated(n, z, z.a.read > k, SignalsHandled(n, y, moves))
    decreases |moves|
  {
    hide Begins;
    hide Base;
    hide LinkOk;
    hide StillTogether;
    hide Make;
    hide Picture;
    hide Follows;
    hide ArrivalIndex;
    hide Handling;
    BeginsAsFacing(n, y, steps, number);
    var k := ArrivalIndex(n, y);
    if moves == [] {
      NothingPlayed(n, y);
      NotMetYet(n, y, steps, number);
    } else {
      var front, move := moves[..|moves| - 1], moves[|moves| - 1];
      var x, z := Play(n, y, front), Play(n, y, moves);
      BaseThroughout(n, y, front);
      TogetherBefore(n, x, move);
      EveryRunIsAPlay(n, y, steps, number, front);
      MoveKeeps(n, x, move, k);
      if x.a.read <= k < z.a.read {
        SimulatedByOffer(n, x, z, SignalsHandled(n, y, front));
      } else {
        SimulatedOn(n, x, z, x.a.read > k, SignalsHandled(n, y, front), Handling(n, x, move));
      }
    }
  }

  lemma NothingPlayed(n: Names, y: Link)
    requires Picture(n, y) == Glare.Facing(true, false)
    ensures Simulated(n, y, false, 0)
  {
    hide Picture;
    assert Glare.Play(Glare.Facing(true, false), []) == Picture(n, y) && Tallies([], false, 0);
  }

  lemma NotMetYet(n: Names, y: Link, steps: seq<Step>, number: MeetingId)
    requires Begins(n, y, steps, number)
    ensures y.a.read <= ArrivalIndex(n, y)
  {
  }

  lemma {:induction false} BaseThroughout(n: Names, y: Link, moves: seq<Move>)
    requires Base(n, y.server)
    ensures Base(n, Play(n, y, moves).server)
    decreases |moves|
  {
    hide Base;
    hide Make;
    hide Apply;
    if moves != [] {
      var x := Play(n, y, moves[..|moves| - 1]);
      BaseThroughout(n, y, moves[..|moves| - 1]);
      ServerMoves(n, x, moves[|moves| - 1]);
      var t := Make(n, x, moves[|moves| - 1]).server;
      if t != x.server {
        var step :| t == Apply(x.server, step);
        BaseKept(n, x.server, step);
      }
    }
  }

  /**
   * End to end. Once the second has connected, and while both rows stay open with one socket each and both
   * clients stay in the room, every run in which all frames have been read and all signals received ends
   * with two peers that are stable, described, and matched, every candidate sent handed over.
   */
  lemma {:induction false} TwoClientsConverge(n: Names, y: Link, steps: seq<Step>, number: MeetingId, moves: seq<Move>)
    requires Begins(n, y, steps, number) && StillTogether(n, Play(n, y, moves))
    requires var z := Play(n, y, moves);
             && z.a.outbox == [] && z.a.read == |Wire(z.server, n.c)|
             && z.b.outbox == [] && z.b.read == |Wire(z.server, n.d)|
    ensures var z := Play(n, y, moves);
            && z.a.peer.Some? && z.b.peer.Some?
            && var a, b := z.a.peer.value, z.b.peer.value;
            && Glare.Resting(a.rtc) && Glare.Resting(b.rtc) && Glare.Matched(a.rtc, b.rtc)
            && a.rtc.currentLocal.Some? && a.rtc.currentRemote.Some?
            && a.pending == [] && a.submitted == z.fromB && b.pending == [] && b.submitted == z.fromA
  {
    hide Reached;
    hide Invariant;
    hide Mannered;
    hide ServerOk;
    hide Begins;
    hide Glare.Play;
    hide Play;
    hide Glare.OffersIn;
    hide Glare.Deliveries;
    EveryRunIsAPlay(n, y, steps, number, moves);
    var z, k := Play(n, y, moves), ArrivalIndex(n, y);
    ServerHasLogs(n, z.server);
    assert Wire(z.server, n.c)[z.a.read..] == [] && Wire(z.server, n.d)[z.b.read..] == [];
    var g: seq<Glare.Move> :| Glare.Play(Glare.Facing(true, false), g) == Picture(n, z)
                              && Tallies(g, true, SignalsHandled(n, y, moves));
    var i :| 0 <= i < |g| && g[i] == Glare.Offers(Glare.A);
    Glare.GlareConverges(g);
  }

  /**
   * However such a run goes, the two handle no more signals of each other, those still on their way included,
   * than two for the one offer and one for each candidate sent.
   */
  lemma {:induction false} SignalsAreBounded(n: Names, y: Link, steps: seq<Step>, number: MeetingId, moves: seq<Move>)
    requires Begins(n, y, steps, number) && StillTogether(n, Play(n, y, moves))
    ensures var z := Play(n, y, moves);
            SignalsHandled(n, y, moves) + Glare.Potential(Picture(n, z)) <= 2 + |z.fromA| + |z.fromB|
  {
    hide Begins;
    hide StillTogether;
    hide Base;
    hide LinkOk;
    hide Play;
    hide SignalsHandled;
    hide Glare.Play;
    hide Glare.Potential;
    EveryRunIsAPlay(n, y, steps, number, moves);
    var z, k := Play(n, y, moves), ArrivalIndex(n, y);
    var g: seq<Glare.Move> :| Glare.Play(Glare.Facing(true, false), g) == Picture(n, z)
                              && Tallies(g, z.a.read > k, SignalsHandled(n, y, moves));
    Glare.DeliveriesAreBounded(true, false, g);
    Glare.CausedIs(true, false, g);
  }

  lemma ServerHasLogs(n: Names, s: State)
    requires Base(n, s)
    ensures Wire(s, n.d) != []
  {
    hide Reached;
    hide Invariant;
    hide SnapshotsOk;
    hide DeparturesOk;
    hide StrangersOk;
    hide BoundTotal;
    hide IntroductionsOk;
    ReachedIsOk(s);
  }
}
