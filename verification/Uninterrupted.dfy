// A method of the peer manager that nothing interrupts is one step: its pieces, run one after
// the other from the call to the end, do to the peer exactly what the one-step model says.

module Uninterrupted {
  import opened Model
  import opened Jsep
  import opened PeerManager
  import opened Glare

  /**
   * The operation as the browser performs it: it may refuse any of its own accord, and those it refuses
   * during a call are given. An await of something already done cannot fail.
   */
  function Attempt(c: Rtc, op: Operation, refused: set<Operation>): Option<Rtc> {
    if op in refused && !op.Tick? then None else Perform(c, op)
  }

  /** The latest call gets its awaited operation settled and runs on. */
  function Advance(m: Manager, refused: set<Operation>): (n: Manager)
    requires Sound(m)
    ensures Sound(n)
  {
    if m.tasks == [] then m
    else
      var k := |m.tasks| - 1;
      var fails := Awaited(m.tasks[k].at) in refused;
      SettleIsSound(m, k, fails);
      HappenIsSound(Settle(m, k, fails), Resumes(k));
      Resume(Settle(m, k, fails), k)
  }

  function RunOn(m: Manager, n: nat, refused: set<Operation>): (z: Manager)
    requires Sound(m)
    ensures Sound(z)
    decreases n
  {
    if n == 0 then m else RunOn(Advance(m, refused), n - 1, refused)
  }

  ghost predicate Reaches(m: Manager, z: Manager, refused: set<Operation>)
    requires Sound(m)
  {
    exists n: nat :: RunOn(m, n, refused) == z
  }

  lemma {:induction false} RunOnAdds(m: Manager, i: nat, j: nat, refused: set<Operation>)
    requires Sound(m)
    ensures RunOn(RunOn(m, i, refused), j, refused) == RunOn(m, i + j, refused)
    decreases i
  {
    hide Advance;
    if i > 0 {
      RunOnAdds(Advance(m, refused), i - 1, j, refused);
    }
  }

  lemma ReachesAtOnce(m: Manager, refused: set<Operation>)
    requires Sound(m)
    ensures Reaches(m, m, refused)
  {
    assert RunOn(m, 0, refused) == m;
  }

  lemma ReachesByAdvancing(m: Manager, z: Manager, refused: set<Operation>)
    requires Sound(m) && Reaches(Advance(m, refused), z, refused)
    ensures Reaches(m, z, refused)
  {
    hide Advance;
    var n: nat :| RunOn(Advance(m, refused), n, refused) == z;
    assert RunOn(m, n + 1, refused) == z;
  }

  lemma ReachesTransitively(m: Manager, x: Manager, z: Manager, refused: set<Operation>)
    requires Sound(m) && Sound(x) && Reaches(m, x, refused) && Reaches(x, z, refused)
    ensures Reaches(m, z, refused)
  {
    var i: nat :| RunOn(m, i, refused) == x;
    var j: nat :| RunOn(x, j, refused) == z;
    RunOnAdds(m, i, j, refused);
    assert RunOn(m, i + j, refused) == z;
  }

  function Succeeded(m: Manager, r: Ref, at: Point, c: Rtc): Manager
    requires r in m.heap
  {
    Proceed(WithPeer(m, r, m.heap[r].(rtc := c)), Task(r, at, Some(true)), true)
  }

  /** One piece of the latest call: the operation takes effect or is refused, and the call runs on. */
  lemma AdvanceLatest(m: Manager, r: Ref, at: Point, refused: set<Operation>)
    requires Sound(m) && r in m.heap
    ensures Sound(Suspend(m, r, at))
    ensures var result := Attempt(m.heap[r].rtc, Awaited(at), refused);
            && (result.None? ==> Advance(Suspend(m, r, at), refused) == Proceed(m, Task(r, at, Some(false)), false))
            && (result.Some? ==> Advance(Suspend(m, r, at), refused) == Succeeded(m, r, at, result.value))
  {
    hide Perform;
    hide Proceed;
    var x := Suspend(m, r, at);
    var k := |m.tasks|;
    var settled := Settle(x, k, Awaited(at) in refused);
    assert Without(settled.tasks, k) == m.tasks;
  }

  /** `p` with more candidates handed to its connection. */
  function Handed(p: Peer, queued: seq<Candidate>): Peer {
    p.(submitted := p.submitted + multiset(queued))
  }

  lemma HandedOneByOne(p: Peer, queued: seq<Candidate>)
    requires queued != []
    ensures Handed(Handed(p, [queued[0]]), queued[1..]) == Handed(p, queued)
  {
    assert queued == [queued[0]] + queued[1..];
    assert multiset(queued) == multiset{queued[0]} + multiset(queued[1..]);
  }

  /** One turn of the flush loop, whether or not the connection accepts the candidate. */
  lemma FlushTurns(m: Manager, r: Ref, queued: seq<Candidate>, answerNext: bool, refused: set<Operation>)
    requires Sound(m) && r in m.heap && queued != []
    ensures Sound(Continue(m, r, queued, answerNext)) && Sound(WithPeer(m, r, Handed(m.heap[r], [queued[0]])))
    ensures Advance(Continue(m, r, queued, answerNext), refused)
         == Continue(WithPeer(m, r, Handed(m.heap[r], [queued[0]])), r, queued[1..], answerNext)
  {
    hide Advance;
    hide Continue;
    var q := Handed(m.heap[r], [queued[0]]);
    var n := WithPeer(m, r, q);
    var at := Flushing(queued[0], queued[1..], answerNext);
    AdvanceLatest(n, r, at, refused);
    assert WithPeer(n, r, q) == n;
    assert Continue(m, r, queued, answerNext) == Suspend(n, r, at) by { ContinueSuspends(m, r, queued, answerNext); }
  }

  lemma ContinueSuspends(m: Manager, r: Ref, queued: seq<Candidate>, answerNext: bool)
    requires r in m.heap && queued != []
    ensures Continue(m, r, queued, answerNext)
         == Suspend(WithPeer(m, r, Handed(m.heap[r], [queued[0]])), r, Flushing(queued[0], queued[1..], answerNext))
  {
    assert multiset([queued[0]]) == multiset{queued[0]};
  }

  /** A flush submits every queued candidate and ends. */
  lemma {:induction false} FlushRunsThrough(m: Manager, r: Ref, queued: seq<Candidate>,
      answerNext: bool, refused: set<Operation>)
    requires Sound(m) && r in m.heap
    ensures Sound(Continue(m, r, queued, answerNext))
    ensures Reaches(Continue(m, r, queued, answerNext),
                    Suspend(WithPeer(m, r, Handed(m.heap[r], queued)), r, Flushed(answerNext)), refused)
    decreases |queued|
  {
    hide Advance;
    hide Reaches;
    if queued == [] {
      assert Handed(m.heap[r], queued) == m.heap[r];
      assert WithPeer(m, r, m.heap[r]) == m;
      ReachesAtOnce(Continue(m, r, queued, answerNext), refused);
    } else {
      hide Continue;
      hide Handed;
      var q := Handed(m.heap[r], [queued[0]]);
      FlushTurns(m, r, queued, answerNext, refused);
      FlushRunsThrough(WithPeer(m, r, q), r, queued[1..], answerNext, refused);
      HandedOneByOne(m.heap[r], queued);
      ReachesByAdvancing(Continue(m, r, queued, answerNext),
                         Suspend(WithPeer(WithPeer(m, r, q), r, Handed(q, queued[1..])), r, Flushed(answerNext)),
                         refused);
      assert WithPeer(WithPeer(m, r, q), r, Handed(q, queued[1..])) == WithPeer(m, r, Handed(m.heap[r], queued));
    }
  }

  // --- How a call ends -------------------------------------------------------------------------------

  function Addressed(to: PeerId, replies: seq<Message>): seq<Sent> {
    seq(|replies|, i requires 0 <= i < |replies| => Sent(to, replies[i]))
  }

  /** Only the peer and what was sent differ; every other suspended call is where it was. */
  function Outcome(m: Manager, r: Ref, reaction: Reaction, next: nat): Manager
    requires r in m.heap
  {
    m.(heap := m.heap[r := reaction.peer], sent := m.sent + Addressed(m.heap[r].remote, reaction.replies), next := next)
  }

  ghost predicate EndsAs(x: Manager, m: Manager, r: Ref, reaction: Reaction, refused: set<Operation>)
    requires Sound(x) && r in m.heap
  {
    exists next: nat :: Reaches(x, Outcome(m, r, reaction, next), refused)
  }

  lemma NoReply(m: Manager, r: Ref, p: Peer)
    requires r in m.heap
    ensures Outcome(m, r, Reaction(p, []), m.next) == WithPeer(m, r, p)
  {
  }

  lemma EndsHere(m: Manager, r: Ref, p: Peer, refused: set<Operation>)
    requires Sound(m) && r in m.heap && Sound(WithPeer(m, r, p))
    ensures EndsAs(WithPeer(m, r, p), m, r, Reaction(p, []), refused)
  {
    hide Reaches;
    NoReply(m, r, p);
    ReachesAtOnce(WithPeer(m, r, p), refused);
  }

  lemma EndsLater(x: Manager, y: Manager, m: Manager, r: Ref, reaction: Reaction, refused: set<Operation>)
    requires Sound(x) && Sound(y) && r in m.heap && Reaches(x, y, refused) && EndsAs(y, m, r, reaction, refused)
    ensures EndsAs(x, m, r, reaction, refused)
  {
    hide Reaches;
    var next: nat :| Reaches(y, Outcome(m, r, reaction, next), refused);
    ReachesTransitively(x, y, Outcome(m, r, reaction, next), refused);
  }

  lemma EndsAfterAdvancing(x: Manager, m: Manager, r: Ref, reaction: Reaction, refused: set<Operation>)
    requires Sound(x) && r in m.heap && EndsAs(Advance(x, refused), m, r, reaction, refused)
    ensures EndsAs(x, m, r, reaction, refused)
  {
    hide Reaches;
    hide Advance;
    ReachesAtOnce(Advance(x, refused), refused);
    ReachesByAdvancing(x, Advance(x, refused), refused);
    EndsLater(x, Advance(x, refused), m, r, reaction, refused);
  }

  /** A change of the peer made on the way is part of the outcome. */
  lemma EndsFrom(x: Manager, m: Manager, r: Ref, q: Peer, reaction: Reaction, refused: set<Operation>)
    requires Sound(x) && r in m.heap && q.remote == m.heap[r].remote
    requires EndsAs(x, WithPeer(m, r, q), r, reaction, refused)
    ensures EndsAs(x, m, r, reaction, refused)
  {
    hide Reaches;
    var n := WithPeer(m, r, q);
    var next: nat :| Reaches(x, Outcome(n, r, reaction, next), refused);
    assert Outcome(n, r, reaction, next) == Outcome(m, r, reaction, next);
  }

  // --- One step, refusals included -------------------------------------------------------------------

  /** The answering half of `handleOffer`. */
  function Reply(p: Peer, answer: Sdp, refused: set<Operation>): Reaction {
    match Attempt(p.rtc, CreateAnswer, refused)
    case None => Reaction(p, [])
    case Some(_) =>
      match Attempt(p.rtc, SetLocal(answer), refused)
      case None => Reaction(p, [])
      case Some(done) => Reaction(p.(rtc := done), [AnswerMsg(done.Local())])
  }

  function AcceptUnless(p: Peer, theirs: Sdp, answer: Sdp, refused: set<Operation>): Reaction {
    match Attempt(p.rtc, SetRemote(theirs), refused)
    case None => Reaction(p, [])
    case Some(taken) => Reply(Submitted(p.(rtc := taken)), answer, refused)
  }

  function OfferUnless(p: Peer, theirs: Sdp, answer: Sdp, refused: set<Operation>): Reaction {
    var collision := p.rtc.signaling.HaveLocalOffer? || p.answering;
    if collision && p.initiator then Reaction(p, [])
    else if collision then
      match Attempt(p.rtc, Rollback, refused)
      case None => Reaction(p, [])
      case Some(back) => AcceptUnless(p.(rtc := back), theirs, answer, refused)
    else AcceptUnless(p, theirs, answer, refused)
  }

  function AnswerUnless(p: Peer, theirs: Sdp, refused: set<Operation>): Peer {
    if !p.rtc.signaling.HaveLocalOffer? then p
    else
      match Attempt(p.rtc, SetRemote(theirs), refused)
      case None => p.(answering := false)
      case Some(done) => Submitted(p.(rtc := done, answering := false))
  }

  function ReactUnless(p: Peer, message: Message, answer: Sdp, refused: set<Operation>): Reaction {
    match message
    case IceMsg(c) => Reaction(if c.None? then p else OnIce(p, c.value), [])
    case OfferMsg(sdp) => if sdp.None? then Reaction(p, []) else OfferUnless(p, sdp.value, answer, refused)
    case AnswerMsg(sdp) => Reaction(if sdp.None? then p else AnswerUnless(p, sdp.value, refused), [])
  }

  function PlaceOffer(p: Peer, offer: Sdp, refused: set<Operation>): Reaction {
    match Attempt(p.rtc, SetLocal(offer), refused)
    case None => Reaction(p, [])
    case Some(placed) => Reaction(p.(rtc := placed), [OfferMsg(placed.Local())])
  }

  /** The offer half of `addPeer`. */
  function MakeOfferUnless(p: Peer, offer: Sdp, refused: set<Operation>): Reaction {
    if Attempt(p.rtc, CreateOffer, refused).None? then Reaction(p, []) else PlaceOffer(p, offer, refused)
  }

  /** With nothing refused these are the steps of the two sides facing each other. */
  lemma NothingRefused(p: Peer, message: Message, answer: Sdp)
    ensures ReactUnless(p, message, answer, {}) == React(p, message, answer)
    ensures !p.rtc.signaling.HaveRemoteOffer? ==> MakeOfferUnless(p, answer, {}) == MakeOffer(p, answer)
  {
  }

  // --- Whole calls ---------------------------------------------------------------------------------

  lemma PlacingRuns(m: Manager, r: Ref, answer: Sdp, refused: set<Operation>)
    requires Sound(m) && r in m.heap
    ensures Sound(Suspend(m, r, PlacingAnswer(answer)))
    ensures EndsAs(Suspend(m, r, PlacingAnswer(answer)), m, r,
                   match Attempt(m.heap[r].rtc, SetLocal(answer), refused)
                   case None => Reaction(m.heap[r], [])
                   case Some(done) => Reaction(m.heap[r].(rtc := done), [AnswerMsg(done.Local())]), refused)
  {
    hide Attempt;
    hide Advance;
    hide Reaches;
    var x := Suspend(m, r, PlacingAnswer(answer));
    AdvanceLatest(m, r, PlacingAnswer(answer), refused);
    match Attempt(m.heap[r].rtc, SetLocal(answer), refused) {
      case None =>
        assert WithPeer(m, r, m.heap[r]) == m;
        EndsHere(m, r, m.heap[r], refused);
        EndsAfterAdvancing(x, m, r, Reaction(m.heap[r], []), refused);
      case Some(done) =>
        var reaction := Reaction(m.heap[r].(rtc := done), [AnswerMsg(done.Local())]);
        assert Advance(x, refused) == Outcome(m, r, reaction, m.next);
        ReachesAtOnce(Advance(x, refused), refused);
        EndsAfterAdvancing(x, m, r, reaction, refused);
    }
  }

  lemma NextIsFree(m: Manager, r: Ref, x: Manager, reaction: Reaction, next: nat, refused: set<Operation>)
    requires Sound(x) && r in m.heap && EndsAs(x, m.(next := next), r, reaction, refused)
    ensures EndsAs(x, m, r, reaction, refused)
  {
    hide Reaches;
    var k: nat :| Reaches(x, Outcome(m.(next := next), r, reaction, k), refused);
    assert Outcome(m.(next := next), r, reaction, k) == Outcome(m, r, reaction, k);
  }

  lemma ReplyRuns(m: Manager, r: Ref, refused: set<Operation>)
    requires Sound(m) && r in m.heap
    ensures Sound(Suspend(m, r, CreatingAnswer))
    ensures EndsAs(Suspend(m, r, CreatingAnswer), m, r, Reply(m.heap[r], Sdp(AnAnswer, m.next), refused), refused)
  {
    hide Advance;
    hide Reaches;
    hide EndsAs;
    var x := Suspend(m, r, CreatingAnswer);
    var answer := Sdp(AnAnswer, m.next);
    AdvanceLatest(m, r, CreatingAnswer, refused);
    assert WithPeer(m, r, m.heap[r]) == m;
    if Attempt(m.heap[r].rtc, CreateAnswer, refused).None? {
      EndsHere(m, r, m.heap[r], refused);
    } else {
      var n := m.(next := m.next + 1);
      PlacingRuns(n, r, answer, refused);
      assert Advance(x, refused) == Suspend(n, r, PlacingAnswer(answer));
      NextIsFree(m, r, Advance(x, refused), Reply(m.heap[r], answer, refused), m.next + 1, refused);
    }
    EndsAfterAdvancing(x, m, r, Reply(m.heap[r], answer, refused), refused);
  }

  /** The flush of an offer, then the reply. */
  lemma FlushThenReplyRuns(m: Manager, r: Ref, refused: set<Operation>)
    requires Sound(m) && r in m.heap
    ensures Sound(Flush(m, r, true))
    ensures EndsAs(Flush(m, r, true), m, r, Reply(Submitted(m.heap[r]), Sdp(AnAnswer, m.next), refused), refused)
  {
    hide Advance;
    hide Reaches;
    hide EndsAs;
    hide Continue;
    hide Attempt;
    var p := m.heap[r];
    var emptied := WithPeer(m, r, p.(pending := []));
    var done := WithPeer(m, r, Submitted(p));
    FlushRunsThrough(emptied, r, p.pending, true, refused);
    assert WithPeer(emptied, r, Handed(p.(pending := []), p.pending)) == done;
    AdvanceLatest(done, r, Flushed(true), refused);
    assert Attempt(Submitted(p).rtc, Tick, refused) == Some(Submitted(p).rtc)
      by { TickDoesNothing(Submitted(p).rtc, refused); }
    assert WithPeer(done, r, Submitted(p)) == done;
    ReplyRuns(done, r, refused);
    var reaction := Reply(Submitted(p), Sdp(AnAnswer, m.next), refused);
    EndsAfterAdvancing(Suspend(done, r, Flushed(true)), done, r, reaction, refused);
    EndsLater(Continue(emptied, r, p.pending, true), Suspend(done, r, Flushed(true)), done, r, reaction, refused);
    EndsFrom(Flush(m, r, true), m, r, Submitted(p), reaction, refused);
  }

  lemma TickDoesNothing(c: Rtc, refused: set<Operation>)
    ensures Attempt(c, Tick, refused) == Some(c)
  {
  }

  lemma AcceptRuns(m: Manager, r: Ref, theirs: Sdp, refused: set<Operation>)
    requires Sound(m) && r in m.heap
    ensures Sound(Suspend(m, r, AcceptingOffer(theirs)))
    ensures EndsAs(Suspend(m, r, AcceptingOffer(theirs)), m, r,
        AcceptUnless(m.heap[r], theirs, Sdp(AnAnswer, m.next), refused), refused)
  {
    hide Advance;
    hide Reaches;
    hide EndsAs;
    hide Flush;
    hide Attempt;
    var p, x := m.heap[r], Suspend(m, r, AcceptingOffer(theirs));
    AdvanceLatest(m, r, AcceptingOffer(theirs), refused);
    var reaction := AcceptUnless(p, theirs, Sdp(AnAnswer, m.next), refused);
    match Attempt(p.rtc, SetRemote(theirs), refused) {
      case None =>
        assert WithPeer(m, r, p) == m;
        EndsHere(m, r, p, refused);
      case Some(taken) =>
        var q := p.(rtc := taken);
        FlushThenReplyRuns(WithPeer(m, r, q), r, refused);
        assert reaction == Reply(Submitted(q), Sdp(AnAnswer, m.next), refused);
        EndsFrom(Advance(x, refused), m, r, q, reaction, refused);
    }
    EndsAfterAdvancing(x, m, r, reaction, refused);
  }

  lemma OfferRuns(m: Manager, r: Ref, theirs: Sdp, refused: set<Operation>)
    requires Sound(m) && r in m.heap
    ensures Sound(TakeOffer(m, r, theirs))
    ensures EndsAs(TakeOffer(m, r, theirs), m, r,
        OfferUnless(m.heap[r], theirs, Sdp(AnAnswer, m.next), refused), refused)
  {
    hide Advance;
    hide Reaches;
    hide EndsAs;
    hide AcceptUnless;
    hide Attempt;
    var p := m.heap[r];
    var reaction := OfferUnless(p, theirs, Sdp(AnAnswer, m.next), refused);
    var collision := p.rtc.signaling.HaveLocalOffer? || p.answering;
    assert WithPeer(m, r, p) == m;
    EndsHere(m, r, p, refused);
    if !collision {
      AcceptRuns(m, r, theirs, refused);
    } else if !p.initiator {
      var x := Suspend(m, r, RollingBack(theirs));
      AdvanceLatest(m, r, RollingBack(theirs), refused);
      if Attempt(p.rtc, Rollback, refused).Some? {
        var q := p.(rtc := Attempt(p.rtc, Rollback, refused).value);
        AcceptRuns(WithPeer(m, r, q), r, theirs, refused);
        EndsFrom(Advance(x, refused), m, r, q, reaction, refused);
      }
      EndsAfterAdvancing(x, m, r, reaction, refused);
    }
  }

  lemma AnswerRuns(m: Manager, r: Ref, theirs: Sdp, refused: set<Operation>)
    requires Sound(m) && r in m.heap
    ensures Sound(TakeAnswer(m, r, theirs))
    ensures EndsAs(TakeAnswer(m, r, theirs), m, r, Reaction(AnswerUnless(m.heap[r], theirs, refused), []), refused)
  {
    hide Advance;
    hide Reaches;
    hide EndsAs;
    hide Flush;
    hide Attempt;
    var p := m.heap[r];
    assert WithPeer(m, r, p) == m;
    EndsHere(m, r, p, refused);
    if p.rtc.signaling.HaveLocalOffer? {
      var q := p.(answering := true);
      var n := WithPeer(m, r, q);
      var x := Suspend(n, r, AcceptingAnswer(theirs));
      var reaction := Reaction(AnswerUnless(p, theirs, refused), []);
      AdvanceLatest(n, r, AcceptingAnswer(theirs), refused);
      match Attempt(p.rtc, SetRemote(theirs), refused) {
        case None =>
          EndsHere(n, r, q.(answering := false), refused);
        case Some(taken) =>
          var k := WithPeer(n, r, q.(rtc := taken));
          FlushThenStopRuns(k, r, refused);
          EndsFrom(Advance(x, refused), n, r, q.(rtc := taken), reaction, refused);
      }
      EndsAfterAdvancing(x, n, r, reaction, refused);
      EndsFrom(x, m, r, q, reaction, refused);
    }
  }

  lemma FlushThenStopRuns(m: Manager, r: Ref, refused: set<Operation>)
    requires Sound(m) && r in m.heap
    ensures Sound(Flush(m, r, false))
    ensures EndsAs(Flush(m, r, false), m, r, Reaction(Submitted(m.heap[r].(answering := false)), []), refused)
  {
    hide Advance;
    hide Reaches;
    hide EndsAs;
    hide Continue;
    hide Attempt;
    var p := m.heap[r];
    var emptied := WithPeer(m, r, p.(pending := []));
    var done := WithPeer(m, r, Submitted(p));
    FlushRunsThrough(emptied, r, p.pending, false, refused);
    assert WithPeer(emptied, r, Handed(p.(pending := []), p.pending)) == done;
    AdvanceLatest(done, r, Flushed(false), refused);
    assert Attempt(Submitted(p).rtc, Tick, refused) == Some(Submitted(p).rtc)
      by { TickDoesNothing(Submitted(p).rtc, refused); }
    assert WithPeer(done, r, Submitted(p)) == done;
    var reaction := Reaction(Submitted(p.(answering := false)), []);
    EndsHere(done, r, reaction.peer, refused);
    EndsAfterAdvancing(Suspend(done, r, Flushed(false)), done, r, reaction, refused);
    EndsLater(Continue(emptied, r, p.pending, false), Suspend(done, r, Flushed(false)), done, r, reaction, refused);
    EndsFrom(Flush(m, r, false), m, r, Submitted(p), reaction, refused);
  }

  lemma CandidateRuns(m: Manager, r: Ref, c: Candidate, refused: set<Operation>)
    requires Sound(m) && r in m.heap
    ensures Sound(TakeCandidate(m, r, c))
    ensures EndsAs(TakeCandidate(m, r, c), m, r, Reaction(OnIce(m.heap[r], c), []), refused)
  {
    hide Advance;
    hide Reaches;
    hide EndsAs;
    hide Attempt;
    var q := OnIce(m.heap[r], c);
    EndsHere(m, r, q, refused);
    if m.heap[r].rtc.Remote().Some? {
      var n := WithPeer(m, r, q);
      AdvanceLatest(n, r, AddingCandidate(c), refused);
      if Attempt(q.rtc, AddIceCandidate(c), refused).Some? { AcceptedIce(q.rtc, c, refused); }
      assert WithPeer(n, r, q) == n;
      EndsAfterAdvancing(Suspend(n, r, AddingCandidate(c)), m, r, Reaction(q, []), refused);
    }
  }

  lemma AcceptedIce(c: Rtc, candidate: Candidate, refused: set<Operation>)
    requires Attempt(c, AddIceCandidate(candidate), refused).Some?
    ensures Attempt(c, AddIceCandidate(candidate), refused) == Some(c)
  {
  }

  /**
   * A signal, run to its end without interruption, changes the peer of its sender, created if need be, as
   * the one-step model says under the same refusals, sends what it says, and leaves every other call and
   * every other peer alone.
   */
  lemma SignalRunsAsOneStep(m: Manager, from: PeerId, message: Message, refused: set<Operation>)
    requires Sound(m) && !m.destroyed
    ensures Sound(HandleSignal(m, from, message))
    ensures var k := Known(m, from);
            && from in k.peers && k.peers[from] in k.heap
            && EndsAs(HandleSignal(m, from, message), k, k.peers[from],
                      ReactUnless(k.heap[k.peers[from]], message, Sdp(AnAnswer, k.next), refused), refused)
  {
    hide EndsAs;
    hide TakeCandidate;
    hide TakeOffer;
    hide TakeAnswer;
    hide OfferUnless;
    hide AnswerUnless;
    hide OnIce;
    var k := Known(m, from);
    var r := k.peers[from];
    assert WithPeer(k, r, k.heap[r]) == k;
    EndsHere(k, r, k.heap[r], refused);
    match message {
      case IceMsg(c) => if c.Some? { CandidateRuns(k, r, c.value, refused); }
      case OfferMsg(sdp) => if sdp.Some? { OfferRuns(k, r, sdp.value, refused); }
      case AnswerMsg(sdp) => if sdp.Some? { AnswerRuns(k, r, sdp.value, refused); }
    }
  }

  lemma PlacingOfferRuns(m: Manager, r: Ref, offer: Sdp, refused: set<Operation>)
    requires Sound(m) && r in m.heap
    ensures Sound(Suspend(m, r, PlacingOffer(offer)))
    ensures EndsAs(Suspend(m, r, PlacingOffer(offer)), m, r, PlaceOffer(m.heap[r], offer, refused), refused)
  {
    hide Attempt;
    hide Advance;
    hide Reaches;
    var x := Suspend(m, r, PlacingOffer(offer));
    AdvanceLatest(m, r, PlacingOffer(offer), refused);
    match Attempt(m.heap[r].rtc, SetLocal(offer), refused) {
      case None =>
        assert WithPeer(m, r, m.heap[r]) == m;
        EndsHere(m, r, m.heap[r], refused);
      case Some(placed) =>
        assert Advance(x, refused) == Outcome(m, r, PlaceOffer(m.heap[r], offer, refused), m.next);
        ReachesAtOnce(Advance(x, refused), refused);
    }
    EndsAfterAdvancing(x, m, r, PlaceOffer(m.heap[r], offer, refused), refused);
  }

  /** Adding an unknown peer as initiator, run to its end, creates it and makes it one offer, unless refused. */
  lemma AddPeerRunsAsOneStep(m: Manager, id: PeerId, refused: set<Operation>)
    requires Sound(m) && !m.destroyed && id !in m.peers
    ensures Sound(AddPeer(m, id, true)) && m.next in Create(m, id, true).heap
    ensures var k := Create(m, id, true);
            EndsAs(AddPeer(m, id, true), k, m.next,
                MakeOfferUnless(k.heap[m.next], Sdp(AnOffer, k.next), refused), refused)
  {
    hide Advance;
    hide Reaches;
    hide EndsAs;
    hide PlaceOffer;
    var k := Create(m, id, true);
    var r, offer := m.next, Sdp(AnOffer, k.next);
    var x := Suspend(k, r, CreatingOffer);
    var reaction := MakeOfferUnless(k.heap[r], offer, refused);
    AdvanceLatest(k, r, CreatingOffer, refused);
    assert WithPeer(k, r, k.heap[r]) == k;
    if Attempt(NEW, CreateOffer, refused).None? {
      EndsHere(k, r, k.heap[r], refused);
    } else {
      var n := k.(next := k.next + 1);
      PlacingOfferRuns(n, r, offer, refused);
      assert Advance(x, refused) == Suspend(n, r, PlacingOffer(offer));
      NextIsFree(k, r, Advance(x, refused), reaction, k.next + 1, refused);
    }
    EndsAfterAdvancing(x, k, r, reaction, refused);
  }
}
