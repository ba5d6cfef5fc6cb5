// The mesh at the granularity of `await`: every async method is cut at each of its awaits, and
// the pieces of different calls interleave freely. A task is a call suspended at an await.

module PeerManager {
  import opened Model
  import opened Jsep

  type PeerId = nat
  type Ref = nat

  /**
   * `received` and `submitted` are history: the candidates signals brought for this connection, and
   * those handed to it.
   */
  datatype Peer = Peer(
    remote: PeerId,
    initiator: bool,
    rtc: Rtc,
    pending: seq<Candidate>,
    answering: bool,
    received: multiset<Candidate>,
    submitted: multiset<Candidate>)

  datatype Message =
    | OfferMsg(sdp: Option<Sdp>)
    | AnswerMsg(sdp: Option<Sdp>)
    | IceMsg(candidate: Option<Candidate>)

  /** Where a call is suspended. `answerNext` tells a flush inside an offer from one inside an answer. */
  datatype Point =
    | CreatingOffer
    | PlacingOffer(sdp: Sdp)
    | RollingBack(theirs: Sdp)
    | AcceptingOffer(sdp: Sdp)
    | AcceptingAnswer(sdp: Sdp)
    | Flushing(candidate: Candidate, rest: seq<Candidate>, answerNext: bool)
    | Flushed(answerNext: bool)
    | CreatingAnswer
    | PlacingAnswer(sdp: Sdp)
    | AddingCandidate(candidate: Candidate)

  function Awaited(at: Point): Operation {
    match at
    case CreatingOffer => CreateOffer
    case PlacingOffer(sdp) => SetLocal(sdp)
    case RollingBack(_) => Rollback
    case AcceptingOffer(sdp) => SetRemote(sdp)
    case AcceptingAnswer(sdp) => SetRemote(sdp)
    case Flushing(c, _, _) => AddIceCandidate(c)
    case Flushed(_) => Tick
    case CreatingAnswer => CreateAnswer
    case PlacingAnswer(sdp) => SetLocal(sdp)
    case AddingCandidate(c) => AddIceCandidate(c)
  }

  /** `outcome` is absent until the awaited operation has settled. */
  datatype Task = Task(peer: Ref, at: Point, outcome: Option<bool>)

  datatype Sent = Sent(to: PeerId, message: Message)

  /** `heap` holds every peer record ever created. */
  datatype Manager = Manager(
    peers: map<PeerId, Ref>,
    heap: map<Ref, Peer>,
    tasks: seq<Task>,
    destroyed: bool,
    sent: seq<Sent>,
    next: nat)

  const START: Manager := Manager(map[], map[], [], false, [], 0)

  /** Every suspended call refers to a peer record. */
  predicate Sound(m: Manager) {
    && (forall id :: id in m.peers ==> m.peers[id] in m.heap)
    && (forall k :: 0 <= k < |m.tasks| ==> m.tasks[k].peer in m.heap)
    && (forall r :: r in m.heap ==> r < m.next)
  }

  // --- Pieces ----------------------------------------------------------------------------------

  function Create(m: Manager, id: PeerId, initiator: bool): Manager {
    m.(peers := m.peers[id := m.next],
       heap := m.heap[m.next := Peer(id, initiator, NEW, [], false, multiset{}, multiset{})],
       next := m.next + 1)
  }

  function Suspend(m: Manager, r: Ref, at: Point): Manager {
    m.(tasks := m.tasks + [Task(r, at, None)])
  }

  function WithPeer(m: Manager, r: Ref, p: Peer): Manager {
    m.(heap := m.heap[r := p])
  }

  function AddPeer(m: Manager, id: PeerId, initiator: bool): Manager {
    if m.destroyed || id in m.peers then m
    else if initiator then Suspend(Create(m, id, true), m.next, CreatingOffer)
    else Create(m, id, false)
  }

  /** The peer a signal is for, created as the passive side when it is not known yet. */
  function Known(m: Manager, from: PeerId): Manager {
    if from in m.peers then m else Create(m, from, false)
  }

  function TakeCandidate(m: Manager, r: Ref, c: Candidate): Manager
    requires r in m.heap
  {
    var p := m.heap[r].(received := m.heap[r].received + multiset{c});
    if p.rtc.Remote().None? then WithPeer(m, r, p.(pending := p.pending + [c]))
    else Suspend(WithPeer(m, r, p.(submitted := p.submitted + multiset{c})), r, AddingCandidate(c))
  }

  function TakeOffer(m: Manager, r: Ref, sdp: Sdp): Manager
    requires r in m.heap
  {
    var p := m.heap[r];
    var collision := p.rtc.signaling.HaveLocalOffer? || p.answering;
    if collision && p.initiator then m
    else if collision then Suspend(m, r, RollingBack(sdp))
    else Suspend(m, r, AcceptingOffer(sdp))
  }

  function TakeAnswer(m: Manager, r: Ref, sdp: Sdp): Manager
    requires r in m.heap
  {
    var p := m.heap[r];
    if !p.rtc.signaling.HaveLocalOffer? then m
    else Suspend(WithPeer(m, r, p.(answering := true)), r, AcceptingAnswer(sdp))
  }

  function HandleSignal(m: Manager, from: PeerId, message: Message): Manager
    requires Sound(m)
  {
    if m.destroyed then m
    else
      var k := Known(m, from);
      var r := k.peers[from];
      match message
      case IceMsg(c) => if c.None? then k else TakeCandidate(k, r, c.value)
      case OfferMsg(sdp) => if sdp.None? then k else TakeOffer(k, r, sdp.value)
      case AnswerMsg(sdp) => if sdp.None? then k else TakeAnswer(k, r, sdp.value)
  }

  function Closed(p: Peer): Peer {
    p.(rtc := p.rtc.(open := false))
  }

  function RemovePeer(m: Manager, id: PeerId): Manager
    requires Sound(m)
  {
    if id !in m.peers then m
    else WithPeer(m, m.peers[id], Closed(m.heap[m.peers[id]])).(peers := m.peers - {id})
  }

  function ClosedAll(heap: map<Ref, Peer>, refs: set<Ref>): map<Ref, Peer> {
    map r | r in heap :: if r in refs then Closed(heap[r]) else heap[r]
  }

  function Destroy(m: Manager): Manager {
    m.(destroyed := true, peers := map[], heap := ClosedAll(m.heap, m.peers.Values))
  }

  function Init(m: Manager): Manager {
    m.(destroyed := false)
  }

  /** The next candidate of a flush goes to the connection; the rest wait in the call. */
  function Continue(m: Manager, r: Ref, queued: seq<Candidate>, answerNext: bool): Manager
    requires r in m.heap
  {
    if queued == [] then Suspend(m, r, Flushed(answerNext))
    else
      var p := m.heap[r];
      Suspend(WithPeer(m, r, p.(submitted := p.submitted + multiset{queued[0]})),
              r, Flushing(queued[0], queued[1..], answerNext))
  }

  function Flush(m: Manager, r: Ref, answerNext: bool): Manager
    requires r in m.heap
  {
    Continue(WithPeer(m, r, m.heap[r].(pending := [])), r, m.heap[r].pending, answerNext)
  }

  function DoneAnswering(m: Manager, r: Ref): Manager
    requires r in m.heap
  {
    WithPeer(m, r, m.heap[r].(answering := false))
  }

  function Without(tasks: seq<Task>, k: nat): seq<Task>
    requires k < |tasks|
  {
    tasks[..k] + tasks[k + 1..]
  }

  /** The awaited operation takes effect, or is rejected: by the connection, or by a failure of its own. */
  function Settle(m: Manager, k: nat, fails: bool): Manager
    requires Sound(m)
  {
    if k >= |m.tasks| || m.tasks[k].outcome.Some? then m
    else
      var t := m.tasks[k];
      var result := Perform(m.heap[t.peer].rtc, Awaited(t.at));
      if result.None? || (fails && !t.at.Flushed?) then m.(tasks := m.tasks[k := t.(outcome := Some(false))])
      else WithPeer(m, t.peer, m.heap[t.peer].(rtc := result.value)).(tasks := m.tasks[k := t.(outcome := Some(true))])
  }

  /** The call runs on from the await to its next one, or to its end. */
  function Proceed(m: Manager, t: Task, ok: bool): Manager
    requires t.peer in m.heap
  {
    var r := t.peer;
    match t.at
    case CreatingOffer =>
      if ok then Suspend(m, r, PlacingOffer(Sdp(AnOffer, m.next))).(next := m.next + 1) else m
    case PlacingOffer(_) =>
      if ok then m.(sent := m.sent + [Sent(m.heap[r].remote, OfferMsg(m.heap[r].rtc.Local()))]) else m
    case RollingBack(theirs) => if ok then Suspend(m, r, AcceptingOffer(theirs)) else m
    case AcceptingOffer(_) => if ok then Flush(m, r, true) else m
    case AcceptingAnswer(_) => if ok then Flush(m, r, false) else DoneAnswering(m, r)
    case Flushing(_, rest, answerNext) => Continue(m, r, rest, answerNext)
    case Flushed(answerNext) => if answerNext then Suspend(m, r, CreatingAnswer) else DoneAnswering(m, r)
    case CreatingAnswer =>
      if ok then Suspend(m, r, PlacingAnswer(Sdp(AnAnswer, m.next))).(next := m.next + 1) else m
    case PlacingAnswer(_) =>
      if ok then m.(sent := m.sent + [Sent(m.heap[r].remote, AnswerMsg(m.heap[r].rtc.Local()))]) else m
    case AddingCandidate(_) => m
  }

  function Resume(m: Manager, k: nat): Manager
    requires Sound(m)
  {
    if k >= |m.tasks| || m.tasks[k].outcome.None? then m
    else Proceed(m.(tasks := Without(m.tasks, k)), m.tasks[k], m.tasks[k].outcome.value)
  }

  /** The connection found a candidate of its own; a torn-down one has no listener left. */
  function Gather(m: Manager, r: Ref, c: Candidate): Manager {
    if r in m.heap && m.heap[r].rtc.open then m.(sent := m.sent + [Sent(m.heap[r].remote, IceMsg(Some(c)))]) else m
  }

  datatype Event =
    | Initialise
    | Add(id: PeerId, initiator: bool)
    | Receive(from: PeerId, message: Message)
    | Remove(id: PeerId)
    | DestroyAll
    | Settles(k: nat, fails: bool)
    | Resumes(k: nat)
    | Gathers(r: Ref, candidate: Candidate)

  function Happen(m: Manager, e: Event): Manager
    requires Sound(m)
  {
    match e
    case Initialise => Init(m)
    case Add(id, initiator) => AddPeer(m, id, initiator)
    case Receive(from, message) => HandleSignal(m, from, message)
    case Remove(id) => RemovePeer(m, id)
    case DestroyAll => Destroy(m)
    case Settles(k, fails) => Settle(m, k, fails)
    case Resumes(k) => Resume(m, k)
    case Gathers(r, c) => Gather(m, r, c)
  }

  lemma SignalIsSound(m: Manager, from: PeerId, message: Message)
    requires Sound(m)
    ensures Sound(HandleSignal(m, from, message))
  {
  }

  lemma SettleIsSound(m: Manager, k: nat, fails: bool)
    requires Sound(m)
    ensures Sound(Settle(m, k, fails))
  {
    hide Perform;
  }

  lemma ContinueIsSound(m: Manager, r: Ref, queued: seq<Candidate>, answerNext: bool)
    requires Sound(m) && r in m.heap
    ensures Sound(Continue(m, r, queued, answerNext))
  {
  }

  lemma ProceedIsSound(m: Manager, t: Task, ok: bool)
    requires Sound(m) && t.peer in m.heap
    ensures Sound(Proceed(m, t, ok))
  {
    hide Continue;
    var emptied := WithPeer(m, t.peer, m.heap[t.peer].(pending := []));
    ContinueIsSound(emptied, t.peer, m.heap[t.peer].pending, t.at.AcceptingOffer?);
    if t.at.Flushing? { ContinueIsSound(m, t.peer, t.at.rest, t.at.answerNext); }
  }

  lemma HappenIsSound(m: Manager, e: Event)
    requires Sound(m)
    ensures Sound(Happen(m, e))
  {
    hide HandleSignal;
    hide Settle;
    hide Proceed;
    match e {
      case Receive(from, message) => SignalIsSound(m, from, message);
      case Settles(k, fails) => SettleIsSound(m, k, fails);
      case Resumes(k) =>
        if k < |m.tasks| && m.tasks[k].outcome.Some? {
          ProceedIsSound(m.(tasks := Without(m.tasks, k)), m.tasks[k], m.tasks[k].outcome.value);
        }
      case _ =>
    }
  }

  function Interleaving(events: seq<Event>): (m: Manager)
    ensures Sound(m)
  {
    if events == [] then START
    else
      var before := Interleaving(events[..|events| - 1]);
      HappenIsSound(before, events[|events| - 1]);
      Happen(before, events[|events| - 1])
  }
}
