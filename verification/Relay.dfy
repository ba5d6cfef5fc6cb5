// The server as a channel: what it relays between two sockets, and that nothing else it does looks
// like a signal of the one to the other.

module Relay {
  import opened Model
  import opened Protocol
  import opened Registry
  import opened Server
  import opened ServerProofs
  import opened Introductions
  import opened Jsep
  import PeerManager
  import Isolation
  import Lifecycle
  import LifecycleProofs

  type Peer = PeerManager.Peer
  type Message = PeerManager.Message

  // --- Signals on the wire ----------------------------------------------------------------------

  /** What the peer managers of the source ever send. */
  predicate WellFormed(m: Message) {
    match m
    case OfferMsg(sdp) => sdp.Some? && sdp.value.kind.AnOffer?
    case AnswerMsg(sdp) => sdp.Some? && sdp.value.kind.AnAnswer?
    case IceMsg(c) => c.Some?
  }

  function Encoded(to: RowId, m: Message): ClientFrame
    requires WellFormed(m)
  {
    match m
    case OfferMsg(sdp) => Signal(Offer, Some(to), sdp.value.id)
    case AnswerMsg(sdp) => Signal(Answer, Some(to), sdp.value.id)
    case IceMsg(c) => Signal(Ice, Some(to), c.value)
  }

  function Decoded(kind: SignalKind, payload: nat): Message {
    match kind
    case Offer => PeerManager.OfferMsg(Some(Sdp(AnOffer, payload)))
    case Answer => PeerManager.AnswerMsg(Some(Sdp(AnAnswer, payload)))
    case Ice => PeerManager.IceMsg(Some(payload))
  }

  lemma DecodedIsEncoded(to: RowId, m: Message)
    requires WellFormed(m)
    ensures var f := Encoded(to, m); f.Signal? && f.to == Some(to) && Decoded(f.kind, f.payload) == m
  {
  }

  /** The signals of `from` among these frames, in order. */
  function Seen(frames: seq<ServerFrame>, from: RowId): seq<Message> {
    if frames == [] then []
    else
      Seen(frames[..|frames| - 1], from) +
      var last := frames[|frames| - 1];
      if IsSignalOf(last, from) then [Decoded(last.kind, last.payload)] else []
  }

  lemma {:induction false} SeenAppends(frames: seq<ServerFrame>, more: seq<ServerFrame>, from: RowId)
    ensures Seen(frames + more, from) == Seen(frames, from) + Seen(more, from)
  {
    if more == [] {
      assert frames + more == frames;
    } else {
      var n := |more| - 1;
      assert (frames + more)[..|frames + more| - 1] == frames + more[..n];
      SeenAppends(frames, more[..n], from);
    }
  }

  lemma {:induction false} NothingSeen(frames: seq<ServerFrame>, from: RowId)
    requires forall i :: 0 <= i < |frames| ==> !IsSignalOf(frames[i], from)
    ensures Seen(frames, from) == []
  {
    if frames != [] {
      NothingSeen(frames[..|frames| - 1], from);
    }
  }

  lemma {:induction false} OneSeen(f: ServerFrame, from: RowId)
    ensures Seen([f], from) == if IsSignalOf(f, from) then [Decoded(f.kind, f.payload)] else []
  {
    assert [f][..0] == [];
  }

  // --- What the server relays --------------------------------------------------------------------

  /** Logs grow, and by no signal of `r`. */
  ghost predicate Hushed(before: Wires, after: Wires, r: RowId) {
    forall d :: d in before ==>
      && d in after && before[d] <= after[d]
      && forall i :: |before[d]| <= i < |after[d]| ==> !IsSignalOf(after[d][i], r)
  }

  lemma DeliveryHushed(wires: Wires, to: set<ConnId>, f: ServerFrame, r: RowId)
    requires !IsSignalOf(f, r)
    ensures Hushed(wires, Delivered(wires, to, f), r)
  {
  }

  lemma NothingHushed(wires: Wires, r: RowId)
    ensures Hushed(wires, wires, r)
  {
  }

  lemma HushedComposes(a: Wires, b: Wires, c: Wires, r: RowId)
    requires Hushed(a, b, r) && Hushed(b, c, r)
    ensures Hushed(a, c, r)
  {
    forall d, i | d in a && |a[d]| <= i < |c[d]| ensures !IsSignalOf(c[d][i], r) {
      if i < |b[d]| { assert c[d][i] == b[d][i]; }
    }
  }

  lemma TwoHushed(wires: Wires, to: set<ConnId>, f: ServerFrame, next: set<ConnId>, g: ServerFrame, r: RowId)
    requires !IsSignalOf(f, r) && !IsSignalOf(g, r)
    ensures Hushed(wires, Delivered(Delivered(wires, to, f), next, g), r)
  {
    hide Delivered;
    hide Hushed;
    DeliveryHushed(wires, to, f, r);
    DeliveryHushed(Delivered(wires, to, f), next, g, r);
    HushedComposes(wires, Delivered(wires, to, f), Delivered(Delivered(wires, to, f), next, g), r);
  }

  lemma {:induction false} MuteNoticesHushed(s: State, c: Connection, ids: seq<RowId>, r: RowId)
    requires forall i :: 0 <= i < |ids| ==> ids[i] in s.db.rows
    ensures Hushed(s.wires, MuteNotices(s, c, ids).wires, r)
    decreases |ids|
  {
    hide Hushed;
    hide Delivered;
    if ids == [] {
      NothingHushed(s.wires, r);
    } else {
      var next := MuteNotice(s, c, ids[0]);
      TwoHushed(s.wires, Target(s.Room(c.meetingId), ids[0]), HostMutedYou(c.participantId),
                Recipients(s.Room(c.meetingId), None), PeerUpdated(ids[0], s.db.rows[ids[0]].flags), r);
      MuteNoticesHushed(next, c, ids[1..], r);
      HushedComposes(s.wires, next.wires, MuteNotices(s, c, ids).wires, r);
    }
  }

  lemma HostFramesHushed(s: State, c: Connection, target: Option<RowId>, r: RowId)
    ensures Hushed(s.wires, HandleHostMute(s, c, target).wires, r)
    ensures Hushed(s.wires, HandleHostRemove(s, c, target).wires, r)
  {
    hide Hushed;
    hide Delivered;
    hide ClosedParticipant;
    DeliveryHushed(s.wires, {c.id}, Error(BadFrame), r);
    DeliveryHushed(s.wires, {c.id}, Error(InvalidSession), r);
    if target.Some? && c.participantId in s.db.rows {
      var actor := s.db.rows[c.participantId];
      var room := s.Room(c.meetingId);
      match Lifecycle.HostMute(s.db, actor, target.value) {
        case Err(e) => DeliveryHushed(s.wires, {c.id}, Error(e), r);
        case Ok(db) =>
          if target.value in db.rows {
            TwoHushed(s.wires, Target(room, target.value), HostMutedYou(c.participantId),
                      Recipients(room, None), PeerUpdated(target.value, db.rows[target.value].flags), r);
          }
      }
      match Lifecycle.HostRemove(s.db, actor, target.value, s.clock) {
        case Err(e) => DeliveryHushed(s.wires, {c.id}, Error(e), r);
        case Ok(_) => TwoHushed(s.wires, Target(room, target.value), HostRemovedYou(c.participantId),
                                Recipients(room, None), PeerLeft(target.value), r);
      }
    }
  }

  lemma MeetingFramesHushed(s: State, c: Connection, r: RowId)
    ensures Hushed(s.wires, HandleHostMuteAll(s, c).wires, r)
    ensures Hushed(s.wires, HandleHostEnd(s, c).wires, r)
  {
    hide Hushed;
    hide Delivered;
    hide RemovedAllBut;
    DeliveryHushed(s.wires, {c.id}, Error(InvalidSession), r);
    if c.participantId in s.db.rows {
      var actor := s.db.rows[c.participantId];
      match Lifecycle.HostMuteAll(s.db, actor) {
        case Err(e) => DeliveryHushed(s.wires, {c.id}, Error(e), r);
        case Ok(db) =>
          var ids := Ascending(Lifecycle.Mutable(s.db, actor));
          assert forall i :: 0 <= i < |ids| ==> ids[i] in Lifecycle.Mutable(s.db, actor);
          MuteNoticesHushed(s.(db := db), c, ids, r);
      }
      match Lifecycle.HostEnd(s.db, actor, s.clock) {
        case Err(e) => DeliveryHushed(s.wires, {c.id}, Error(e), r);
        case Ok(_) => DeliveryHushed(s.wires, Recipients(s.Room(c.meetingId), None), MeetingEnded(c.participantId), r);
      }
    }
  }

  lemma PlainFramesHushed(s: State, c: Connection, frame: ClientFrame, r: RowId)
    requires frame.Ping? || frame.StateUpdate? || frame.ChatSend? || frame.Unrecognized?
    ensures Hushed(s.wires, Handle(s, c, frame).wires, r)
  {
    hide Hushed;
    hide Delivered;
    var everyone := Recipients(s.Room(c.meetingId), None);
    match frame {
      case Ping => DeliveryHushed(s.wires, {c.id}, Pong, r);
      case ChatSend(body) => DeliveryHushed(s.wires, everyone, ChatMessage(c.participantId, body), r);
      case Unrecognized => DeliveryHushed(s.wires, {c.id}, Error(UnknownFrame), r);
      case StateUpdate(changes) =>
        match Lifecycle.ApplyStateUpdate(s.db, c.participantId, changes) {
          case Err(e) => DeliveryHushed(s.wires, {c.id}, Error(e), r);
          case Ok(db) =>
            if c.participantId in db.rows {
              DeliveryHushed(s.wires, everyone, PeerUpdated(c.participantId, db.rows[c.participantId].flags), r);
            }
        }
    }
  }

  lemma SignalHushed(s: State, c: Connection, kind: SignalKind, to: Option<RowId>, payload: nat, r: RowId)
    requires c.participantId != r
    ensures Hushed(s.wires, HandleSignal(s, c, kind, to, payload).wires, r)
  {
    hide Hushed;
    hide Delivered;
    DeliveryHushed(s.wires, {c.id}, Error(BadFrame), r);
    DeliveryHushed(s.wires, {c.id}, Error(PeerNotInRoom), r);
    if to.Some? {
      DeliveryHushed(s.wires, Target(s.Room(c.meetingId), to.value), Relayed(kind, c.participantId, payload), r);
    }
  }

  /** A frame relays a signal of its sender, if it is one, and of nobody else. */
  lemma FrameHushed(s: State, c: Connection, frame: ClientFrame, r: RowId)
    requires !frame.Signal? || c.participantId != r
    ensures Hushed(s.wires, Handle(s, c, frame).wires, r)
  {
    hide Hushed;
    hide Delivered;
    hide HandleSignal;
    hide HandleHostMute;
    hide HandleHostMuteAll;
    hide HandleHostRemove;
    hide HandleHostEnd;
    match frame {
      case Signal(kind, to, payload) => SignalHushed(s, c, kind, to, payload, r);
      case HostMuteFrame(target) => HostFramesHushed(s, c, target, r);
      case HostRemoveFrame(target) => HostFramesHushed(s, c, target, r);
      case HostMuteAllFrame => MeetingFramesHushed(s, c, r);
      case HostEndFrame => MeetingFramesHushed(s, c, r);
      case _ => PlainFramesHushed(s, c, frame, r);
    }
  }

  lemma TeardownHushed(s: State, c: Connection, r: RowId)
    ensures Hushed(s.wires, TeardownSocket(s, c).wires, r)
  {
    hide Hushed;
    hide Delivered;
    NothingHushed(s.wires, r);
    var rest := RoomOf(Removed(s.rooms, c), c.meetingId);
    DeliveryHushed(s.wires, Recipients(rest, None), PeerLeft(c.participantId), r);
  }

  lemma ConnectHushed(s: State, number: MeetingId, session: RowId, r: RowId)
    requires Invariant(s)
    ensures Hushed(s.wires, ConnectSocket(s, number, session).wires, r)
  {
    hide Invariant;
    hide ConnectSocket;
    Isolation.ConnectAppends(s, number, session);
  }

  /** The step has a socket of `r` send a signal. */
  predicate SignalsFor(s: State, step: Step, r: RowId) {
    step.Receive? && step.frame.Signal? && step.c in s.sockets && s.sockets[step.c].participantId == r
  }

  /** Only a signal of `r` makes a log grow by a signal of `r`. */
  lemma StepHushed(s: State, step: Step, r: RowId)
    requires Invariant(s) && !SignalsFor(s, step, r)
    ensures Hushed(s.wires, Apply(s, step).wires, r)
  {
    hide Invariant;
    hide Handle;
    hide TeardownSocket;
    hide ConnectSocket;
    hide Hushed;
    NothingHushed(s.wires, r);
    match step {
      case Receive(c, frame) => if c in s.sockets { FrameHushed(s, s.sockets[c], frame, r); }
      case Teardown(c) => if c in s.sockets { TeardownHushed(s, s.sockets[c], r); }
      case Connect(number, session) => ConnectHushed(s, number, session, r);
      case _ =>
    }
  }

  // --- The relay between two sole sockets -----------------------------------------------------------

  /** The sole socket of an open row is the one a search for the row finds. */
  lemma SoleSocketIsFound(s: State, d: ConnId)
    requires Invariant(s) && BoundTotal(s) && Sole(s, d) && Open(s, s.sockets[d].participantId)
    ensures var c := s.sockets[d]; c.id == d && Find(s.Room(c.meetingId), c.participantId) == Some(c) && d in s.running
  {
    hide LifecycleProofs.Invariant;
    var c := s.sockets[d];
    var room := s.Room(c.meetingId);
    var e :| e in room && e.id == d;
    assert e == c;
    var found := Find(room, c.participantId);
    assert found.Some?;
    assert found.value in room && s.sockets[found.value.id] == found.value;
  }

  /** A signal from one sole socket to the other row is appended to the other socket's log, and does no more. */
  lemma RelayGoesThrough(s: State, c: ConnId, d: ConnId, kind: SignalKind, payload: nat)
    requires Invariant(s) && BoundTotal(s) && Together(s, c, d) && Sole(s, c) && Sole(s, d)
    requires Open(s, s.sockets[c].participantId) && Open(s, s.sockets[d].participantId) && d in s.wires
    ensures var p, q := s.sockets[c].participantId, s.sockets[d].participantId;
            Apply(s, Receive(c, Signal(kind, Some(q), payload)))
            == s.(wires := s.wires[d := s.wires[d] + [Relayed(kind, p, payload)]])
  {
    hide Invariant;
    hide BoundTotal;
    hide Sole;
    SoleSocketIsFound(s, c);
    SoleSocketIsFound(s, d);
    var q := s.sockets[d].participantId;
    var f := Relayed(kind, s.sockets[c].participantId, payload);
    assert Target(s.Room(s.sockets[c].meetingId), q) == {d};
    assert Delivered(s.wires, {d}, f) == s.wires[d := s.wires[d] + [f]];
  }

  /** The frames a step adds to a log. */
  function Growth(s: State, t: State, c: ConnId): seq<ServerFrame>
    requires c in s.wires && c in t.wires && s.wires[c] <= t.wires[c]
  {
    t.wires[c][|s.wires[c]|..]
  }

  /** Unless a socket of `r` signals the row of `d`, the log of `d` grows by no signal of `r`. */
  lemma {:induction false} UnsignalledGrowth(s: State, step: Step, r: RowId, d: ConnId)
    requires Invariant(s) && d in s.sockets
    requires !(SignalsFor(s, step, r) && step.frame.to == Some(s.sockets[d].participantId))
    ensures var t := Apply(s, step);
            && d in s.wires && d in t.wires && s.wires[d] <= t.wires[d] && Seen(Growth(s, t, d), r) == []
  {
    hide Apply;
    hide Invariant;
    hide Delivered;
    var t := Apply(s, step);
    assert d in s.wires by { SocketsHaveLogs(s); }
    if SignalsFor(s, step, r) {
      SignalElsewhere(s, step, d);
    } else {
      StepHushed(s, step, r);
    }
    NothingSeen(Growth(s, t, d), r);
  }

  lemma SocketsHaveLogs(s: State)
    requires Invariant(s)
    ensures s.sockets.Keys == s.wires.Keys && forall c :: c in s.sockets ==> s.sockets[c].id == c
  {
  }

  /** A signal for another row reaches no socket of this one, unless as the error its own sender gets. */
  lemma SignalElsewhere(s: State, step: Step, d: ConnId)
    requires Invariant(s) && d in s.sockets && d in s.wires && step.Receive? && step.frame.Signal?
    requires step.frame.to != Some(s.sockets[d].participantId)
    ensures var t := Apply(s, step);
            && d in t.wires && s.wires[d] <= t.wires[d]
            && forall i :: |s.wires[d]| <= i < |t.wires[d]| ==> !t.wires[d][i].Relayed?
  {
    hide LifecycleProofs.Invariant;
    hide BoundOk;
    if step.c in s.running && step.frame.to.Some? {
      var room := s.Room(s.sockets[step.c].meetingId);
      var found := Find(room, step.frame.to.value);
      if found.Some? {
        assert s.sockets[found.value.id] == found.value;
        assert d !in Target(room, step.frame.to.value);
      }
    }
  }
}
