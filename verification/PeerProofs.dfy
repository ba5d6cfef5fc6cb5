// What every interleaving of the peer manager keeps: each candidate is used exactly once, and
// there is one open connection per known peer and no other.

module PeerProofs {
  import opened Model
  import opened Jsep
  import opened PeerManager
  import MeetingRoom

  // --- Connection ownership ----------------------------------------------------------------------

  /** A known peer's connection is open, and an open connection is that of a known peer. */
  ghost predicate Owned(m: Manager) {
    && (forall id :: id in m.peers ==>
          m.peers[id] in m.heap && m.heap[m.peers[id]].remote == id && m.heap[m.peers[id]].rtc.open)
    && (forall r :: r in m.heap && m.heap[r].rtc.open ==> m.heap[r].remote in m.peers && m.peers[m.heap[r].remote] == r)
    && (m.destroyed ==> m.peers == map[])
  }

  predicate OpenTo(m: Manager, r: Ref) {
    r in m.heap && m.heap[r].rtc.open
  }

  lemma OperationsDoNotClose(c: Rtc, op: Operation)
    ensures Perform(c, op).Some? ==> Perform(c, op).value.open == c.open
  {
  }

  /** Only `Create` adds a record, only removal and destruction close one. */
  ghost predicate SameConnections(m: Manager, n: Manager) {
    && n.peers == m.peers && n.destroyed == m.destroyed && n.heap.Keys == m.heap.Keys
    && forall r :: r in m.heap ==>
         && n.heap[r].remote == m.heap[r].remote && n.heap[r].initiator == m.heap[r].initiator
         && n.heap[r].rtc.open == m.heap[r].rtc.open
  }

  lemma SameConnectionsOwned(m: Manager, n: Manager)
    requires Owned(m) && SameConnections(m, n)
    ensures Owned(n)
  {
  }

  lemma CreateOwned(m: Manager, id: PeerId, initiator: bool)
    requires Sound(m) && Owned(m) && !m.destroyed && id !in m.peers
    ensures Owned(Create(m, id, initiator))
  {
  }

  /** What a signal writes: the record of its peer, and in it the bookkeeping of candidates and answers only. */
  ghost predicate OnlyBookkeeping(m: Manager, n: Manager, r: Ref, c: Option<Candidate>) {
    && n.peers == m.peers && n.destroyed == m.destroyed && n.next == m.next
    && r in m.heap && r in n.heap && n.heap == m.heap[r := n.heap[r]]
    && var p, q := m.heap[r], n.heap[r];
    && q.remote == p.remote && q.initiator == p.initiator && q.rtc == p.rtc
    && q.received == if c.Some? then p.received + multiset{c.value} else p.received
  }

  function Carried(message: Message): Option<Candidate> {
    if message.IceMsg? then message.candidate else None
  }

  lemma SignalIsBookkeeping(m: Manager, from: PeerId, message: Message)
    requires Sound(m) && !m.destroyed
    ensures var k := Known(m, from);
            from in k.peers && OnlyBookkeeping(k, HandleSignal(m, from, message), k.peers[from], Carried(message))
  {
    var k := Known(m, from);
    var r := k.peers[from];
    assert OnlyBookkeeping(k, k, r, None);
    hide OnlyBookkeeping;
    hide TakeCandidate;
    hide TakeOffer;
    hide TakeAnswer;
    match message {
      case IceMsg(c) =>
      case OfferMsg(sdp) =>
      case AnswerMsg(sdp) =>
    }
  }

  lemma BookkeepingKeepsConnections(m: Manager, n: Manager, r: Ref, c: Option<Candidate>)
    requires OnlyBookkeeping(m, n, r, c)
    ensures SameConnections(m, n)
  {
  }

  lemma SignalOwned(m: Manager, from: PeerId, message: Message)
    requires Sound(m) && Owned(m)
    ensures Owned(HandleSignal(m, from, message))
  {
    if !m.destroyed {
      SignalIsBookkeeping(m, from, message);
      if from !in m.peers { CreateOwned(m, from, false); }
      hide Owned;
      hide SameConnections;
      hide OnlyBookkeeping;
      hide HandleSignal;
      var k := Known(m, from);
      BookkeepingKeepsConnections(k, HandleSignal(m, from, message), k.peers[from], Carried(message));
    }
  }

  lemma SameHeapSameConnections(m: Manager, n: Manager)
    ensures n.peers == m.peers && n.destroyed == m.destroyed && n.heap == m.heap ==> SameConnections(m, n)
  {
  }

  lemma DoneKeepsConnections(m: Manager, r: Ref)
    requires r in m.heap
    ensures SameConnections(m, DoneAnswering(m, r))
  {
  }

  lemma ContinueKeepsConnections(m: Manager, r: Ref, queued: seq<Candidate>, answerNext: bool)
    requires r in m.heap
    ensures SameConnections(m, Continue(m, r, queued, answerNext))
  {
  }

  lemma FlushKeepsConnections(m: Manager, r: Ref, answerNext: bool)
    requires r in m.heap
    ensures SameConnections(m, Flush(m, r, answerNext))
  {
    hide Continue;
    ContinueKeepsConnections(WithPeer(m, r, m.heap[r].(pending := [])), r, m.heap[r].pending, answerNext);
  }

  lemma ProceedKeepsConnections(m: Manager, t: Task, ok: bool)
    requires t.peer in m.heap
    ensures SameConnections(m, Proceed(m, t, ok))
  {
    hide SameConnections;
    hide Continue;
    hide Flush;
    hide DoneAnswering;
    hide Rtc.Local;
    SameHeapSameConnections(m, Proceed(m, t, ok));
    DoneKeepsConnections(m, t.peer);
    match t.at {
      case Flushing(_, rest, answerNext) => ContinueKeepsConnections(m, t.peer, rest, answerNext);
      case AcceptingOffer(_) => FlushKeepsConnections(m, t.peer, true);
      case AcceptingAnswer(_) => FlushKeepsConnections(m, t.peer, false);
      case _ =>
    }
  }

  lemma ProceedOwned(m: Manager, t: Task, ok: bool)
    requires t.peer in m.heap && Owned(m)
    ensures Owned(Proceed(m, t, ok))
  {
    hide Owned;
    ProceedKeepsConnections(m, t, ok);
    SameConnectionsOwned(m, Proceed(m, t, ok));
  }

  lemma RemoveOwned(m: Manager, id: PeerId)
    requires Sound(m) && Owned(m)
    ensures Owned(RemovePeer(m, id))
  {
  }

  lemma DestroyOwned(m: Manager)
    requires Owned(m)
    ensures Owned(Destroy(m))
  {
  }

  lemma HappenOwned(m: Manager, e: Event)
    requires Sound(m) && Owned(m)
    ensures Owned(Happen(m, e))
  {
    hide Owned;
    hide HandleSignal;
    hide Proceed;
    hide RemovePeer;
    hide Destroy;
    hide Perform;
    match e {
      case Initialise => assert Owned(Init(m)) by { InitOwned(m); }
      case Add(id, initiator) =>
        if !m.destroyed && id !in m.peers {
          CreateOwned(m, id, initiator);
          SameConnectionsOwned(Create(m, id, initiator), AddPeer(m, id, initiator));
        }
      case Receive(from, message) => SignalOwned(m, from, message);
      case Remove(id) => RemoveOwned(m, id);
      case DestroyAll => DestroyOwned(m);
      case Settles(k, fails) => SettleOwned(m, k, fails);
      case Resumes(k) =>
        if k < |m.tasks| && m.tasks[k].outcome.Some? {
          var n := m.(tasks := Without(m.tasks, k));
          SameConnectionsOwned(m, n);
          ProceedOwned(n, m.tasks[k], m.tasks[k].outcome.value);
        }
      case Gathers(r, c) => SameConnectionsOwned(m, Gather(m, r, c));
    }
  }

  lemma InitOwned(m: Manager)
    requires Owned(m)
    ensures Owned(Init(m))
  {
  }

  lemma SettleKeepsConnections(m: Manager, k: nat, fails: bool)
    requires Sound(m)
    ensures SameConnections(m, Settle(m, k, fails))
  {
    hide Perform;
    hide Awaited;
    if k < |m.tasks| {
      OperationsDoNotClose(m.heap[m.tasks[k].peer].rtc, Awaited(m.tasks[k].at));
    }
  }

  lemma SettleOwned(m: Manager, k: nat, fails: bool)
    requires Sound(m) && Owned(m)
    ensures Owned(Settle(m, k, fails))
  {
    hide Settle;
    hide Owned;
    SettleKeepsConnections(m, k, fails);
    SameConnectionsOwned(m, Settle(m, k, fails));
  }

  /** At any point of any interleaving: at most one open connection per remote id, and none leaked. */
  lemma {:induction false} OneConnectionPerPeer(events: seq<Event>)
    ensures var m := Interleaving(events);
            && Owned(m)
            && (forall r, q :: OpenTo(m, r) && OpenTo(m, q) && m.heap[r].remote == m.heap[q].remote ==> r == q)
  {
    if events != [] {
      var n := |events| - 1;
      OneConnectionPerPeer(events[..n]);
      HappenOwned(Interleaving(events[..n]), events[n]);
    }
  }

  lemma DestroyedStays(m: Manager, e: Event)
    requires Sound(m) && m.destroyed && m.peers == map[] && !e.Initialise?
    ensures Happen(m, e).destroyed && Happen(m, e).heap.Keys == m.heap.Keys && Happen(m, e).peers == map[]
  {
    hide Perform;
    hide Proceed;
    if e.Resumes? && e.k < |m.tasks| && m.tasks[e.k].outcome.Some? {
      ProceedKeepsConnections(m.(tasks := Without(m.tasks, e.k)), m.tasks[e.k], m.tasks[e.k].outcome.value);
    }
  }

  /** After `destroy`, no connection is open and none is created until `init`, whatever was suspended. */
  lemma {:induction false} NothingOpensAfterDestroy(events: seq<Event>, more: seq<Event>)
    requires Interleaving(events).destroyed && forall i :: 0 <= i < |more| ==> !more[i].Initialise?
    ensures var m, n := Interleaving(events), Interleaving(events + more);
            n.destroyed && n.heap.Keys == m.heap.Keys && forall r :: r in n.heap ==> !n.heap[r].rtc.open
  {
    hide Happen;
    OneConnectionPerPeer(events + more);
    if more == [] {
      assert events + more == events;
    } else {
      var k := |more| - 1;
      NothingOpensAfterDestroy(events, more[..k]);
      OneConnectionPerPeer(events + more[..k]);
      assert (events + more)[..|events + more| - 1] == events + more[..k];
      DestroyedStays(Interleaving(events + more[..k]), more[k]);
    }
  }

  /** Whether the manager was destroyed and not initialised since, read off the history. */
  function Finished(events: seq<Event>): bool {
    if events == [] then false
    else
      match events[|events| - 1]
      case Initialise => false
      case DestroyAll => true
      case _ => Finished(events[..|events| - 1])
  }

  /** Whether the peer is known, and then whether as initiator, read off the history. */
  function Side(events: seq<Event>, id: PeerId): Option<bool> {
    if events == [] then None
    else
      var front := events[..|events| - 1];
      var before := Side(front, id);
      match events[|events| - 1]
      case Add(x, initiator) => if x == id && before.None? && !Finished(front) then Some(initiator) else before
      case Receive(x, _) => if x == id && before.None? && !Finished(front) then Some(false) else before
      case Remove(x) => if x == id then None else before
      case DestroyAll => None
      case _ => before
  }

  function SideOf(m: Manager, id: PeerId): Option<bool> {
    if id in m.peers && m.peers[id] in m.heap then Some(m.heap[m.peers[id]].initiator) else None
  }

  lemma RunningKeepsConnections(m: Manager, e: Event)
    requires Sound(m) && (e.Settles? || e.Resumes? || e.Gathers?)
    ensures SameConnections(m, Happen(m, e))
  {
    hide Settle;
    hide Proceed;
    match e {
      case Settles(k, fails) => SettleKeepsConnections(m, k, fails);
      case Resumes(k) =>
        if k < |m.tasks| && m.tasks[k].outcome.Some? {
          ProceedKeepsConnections(m.(tasks := Without(m.tasks, k)), m.tasks[k], m.tasks[k].outcome.value);
        }
      case _ =>
    }
  }

  lemma SameConnectionsSides(m: Manager, n: Manager, id: PeerId)
    requires SameConnections(m, n)
    ensures SideOf(n, id) == SideOf(m, id)
  {
  }

  lemma SignalSides(m: Manager, from: PeerId, message: Message, id: PeerId)
    requires Sound(m)
    ensures SideOf(HandleSignal(m, from, message), id)
         == if from == id && SideOf(m, id).None? && !m.destroyed then Some(false) else SideOf(m, id)
    ensures HandleSignal(m, from, message).destroyed == m.destroyed
  {
    if !m.destroyed {
      var k := Known(m, from);
      SignalIsBookkeeping(m, from, message);
      BookkeepingKeepsConnections(k, HandleSignal(m, from, message), k.peers[from], Carried(message));
      SameConnectionsSides(k, HandleSignal(m, from, message), id);
      hide HandleSignal;
      hide OnlyBookkeeping;
    }
  }

  lemma RunningSides(m: Manager, e: Event, id: PeerId)
    requires Sound(m) && (e.Settles? || e.Resumes? || e.Gathers?)
    ensures SideOf(Happen(m, e), id) == SideOf(m, id) && Happen(m, e).destroyed == m.destroyed
  {
    RunningKeepsConnections(m, e);
    hide Happen;
    SameConnectionsSides(m, Happen(m, e), id);
  }

  lemma StepOfSides(m: Manager, e: Event, id: PeerId)
    requires Sound(m) && Sound(Happen(m, e))
    ensures var n := Happen(m, e);
            && n.destroyed == (e.DestroyAll? || (m.destroyed && !e.Initialise?))
            && SideOf(n, id)
               == match e
                  case Add(x, initiator) =>
                    if x == id && SideOf(m, id).None? && !m.destroyed then Some(initiator) else SideOf(m, id)
                  case Receive(x, _) =>
                    if x == id && SideOf(m, id).None? && !m.destroyed then Some(false) else SideOf(m, id)
                  case Remove(x) => if x == id then None else SideOf(m, id)
                  case DestroyAll => None
                  case _ => SideOf(m, id)
  {
    hide HandleSignal;
    hide Settle;
    hide Resume;
    hide Gather;
    match e {
      case Receive(from, message) => SignalSides(m, from, message, id);
      case Settles(_, _) => RunningSides(m, e, id);
      case Resumes(_) => RunningSides(m, e, id);
      case Gathers(_, _) => RunningSides(m, e, id);
      case _ =>
    }
  }

  /**
   * Under every interleaving a peer is known, and with the initiator flag, exactly as its history says: since
   * it was first added or heard from, and neither removed nor swept away by `destroy`, after which nothing is
   * added until `init`.
   */
  lemma {:induction false} KnownIff(events: seq<Event>, id: PeerId)
    ensures Interleaving(events).destroyed == Finished(events)
    ensures SideOf(Interleaving(events), id) == Side(events, id)
    ensures id in Interleaving(events).peers <==> Side(events, id).Some?
  {
    hide Happen;
    if events != [] {
      var front, e := events[..|events| - 1], events[|events| - 1];
      KnownIff(front, id);
      HappenIsSound(Interleaving(front), e);
      StepOfSides(Interleaving(front), e, id);
    }
  }

  // --- Candidates ------------------------------------------------------------------------------------

  function Held(t: Task, r: Ref): multiset<Candidate> {
    if t.peer == r && t.at.Flushing? then multiset(t.at.rest) else multiset{}
  }

  /** What the unfinished flushes of one connection still hold. */
  function HeldBy(tasks: seq<Task>, r: Ref): multiset<Candidate> {
    if tasks == [] then multiset{} else HeldBy(tasks[..|tasks| - 1], r) + Held(tasks[|tasks| - 1], r)
  }

  predicate Due(t: Task, r: Ref) {
    t.peer == r && (t.at.AcceptingOffer? || t.at.AcceptingAnswer?) && t.outcome == Some(true)
  }

  /** A call holds a successful `setRemoteDescription` and has not run on to its flush yet. */
  ghost predicate FlushDue(tasks: seq<Task>, r: Ref) {
    exists k :: 0 <= k < |tasks| && Due(tasks[k], r)
  }

  ghost predicate Accounted(p: Peer, tasks: seq<Task>, r: Ref) {
    p.received == p.submitted + multiset(p.pending) + HeldBy(tasks, r)
  }

  ghost predicate PendingOk(p: Peer, tasks: seq<Task>, r: Ref) {
    p.pending != [] ==> p.rtc.Remote().None? || FlushDue(tasks, r)
  }

  ghost predicate IceOk(m: Manager) {
    forall r :: r in m.heap ==> Accounted(m.heap[r], m.tasks, r) && PendingOk(m.heap[r], m.tasks, r)
  }

  lemma {:induction false} HeldByOneMore(tasks: seq<Task>, t: Task, r: Ref)
    ensures HeldBy(tasks + [t], r) == HeldBy(tasks, r) + Held(t, r)
  {
    assert (tasks + [t])[..|tasks|] == tasks;
  }

  lemma WithoutLast(tasks: seq<Task>, k: nat)
    requires k < |tasks| - 1
    ensures Without(tasks, k) == Without(tasks[..|tasks| - 1], k) + [tasks[|tasks| - 1]]
    ensures tasks[..|tasks| - 1][k] == tasks[k]
  {
  }

  lemma {:induction false} HeldByOneFewer(tasks: seq<Task>, k: nat, r: Ref)
    requires k < |tasks|
    ensures HeldBy(tasks, r) == HeldBy(Without(tasks, k), r) + Held(tasks[k], r)
  {
    hide Held;
    var n := |tasks| - 1;
    if k == n {
      assert Without(tasks, k) == tasks[..n];
    } else {
      HeldByOneFewer(tasks[..n], k, r);
      WithoutLast(tasks, k);
    }
  }

  lemma {:induction false} HeldByUpdated(tasks: seq<Task>, k: nat, t: Task, r: Ref)
    requires k < |tasks| && Held(t, r) == Held(tasks[k], r)
    ensures HeldBy(tasks[k := t], r) == HeldBy(tasks, r)
  {
    var n := |tasks| - 1;
    if k < n {
      HeldByUpdated(tasks[..n], k, t, r);
      assert tasks[k := t][..n] == tasks[..n][k := t];
    } else {
      assert tasks[k := t][..n] == tasks[..n];
    }
  }

  /** Nobody holds a candidate for a record that does not exist yet. */
  lemma {:induction false} HeldByNobody(tasks: seq<Task>, r: Ref)
    requires forall k :: 0 <= k < |tasks| ==> tasks[k].peer != r
    ensures HeldBy(tasks, r) == multiset{}
  {
    if tasks != [] {
      HeldByNobody(tasks[..|tasks| - 1], r);
    }
  }

  lemma DueStays(tasks: seq<Task>, t: Task, r: Ref)
    requires FlushDue(tasks, r)
    ensures FlushDue(tasks + [t], r)
  {
    var k :| 0 <= k < |tasks| && Due(tasks[k], r);
    assert Due((tasks + [t])[k], r);
  }

  /** Suspending adds a call; only a flush among them holds candidates. */
  lemma SuspendIce(m: Manager, r: Ref, at: Point)
    requires IceOk(m) && !at.Flushing?
    ensures IceOk(Suspend(m, r, at))
  {
    var t := Task(r, at, None);
    forall q | q in m.heap
      ensures Accounted(m.heap[q], m.tasks + [t], q) && PendingOk(m.heap[q], m.tasks + [t], q)
    {
      if FlushDue(m.tasks, q) { DueStays(m.tasks, t, q); }
    }
  }

  lemma CreateIce(m: Manager, id: PeerId, initiator: bool)
    requires Sound(m) && IceOk(m)
    ensures IceOk(Create(m, id, initiator))
  {
    HeldByNobody(m.tasks, m.next);
  }

  lemma OneMorePending(p: Peer, tasks: seq<Task>, r: Ref, c: Candidate)
    requires Accounted(p, tasks, r) && p.rtc.Remote().None?
    ensures var q := p.(received := p.received + multiset{c}, pending := p.pending + [c]);
            Accounted(q, tasks, r) && PendingOk(q, tasks, r)
  {
    hide HeldBy;
    assert multiset(p.pending + [c]) == multiset(p.pending) + multiset{c};
  }

  lemma OneMoreSubmitted(p: Peer, tasks: seq<Task>, r: Ref, c: Candidate)
    requires Accounted(p, tasks, r) && PendingOk(p, tasks, r)
    ensures var q := p.(received := p.received + multiset{c}, submitted := p.submitted + multiset{c});
            Accounted(q, tasks, r) && PendingOk(q, tasks, r)
  {
    hide HeldBy;
  }

  lemma TakeCandidateIce(m: Manager, r: Ref, c: Candidate)
    requires r in m.heap && IceOk(m)
    ensures IceOk(TakeCandidate(m, r, c))
  {
    hide Accounted;
    hide PendingOk;
    hide Rtc.Remote;
    hide Suspend;
    var p := m.heap[r];
    if p.rtc.Remote().Some? {
      OneMoreSubmitted(p, m.tasks, r, c);
      var q := p.(received := p.received + multiset{c}, submitted := p.submitted + multiset{c});
      SuspendIce(WithPeer(m, r, q), r, AddingCandidate(c));
    } else {
      OneMorePending(p, m.tasks, r, c);
    }
  }

  lemma SignalIce(m: Manager, from: PeerId, message: Message)
    requires Sound(m) && IceOk(m)
    ensures IceOk(HandleSignal(m, from, message))
  {
    hide IceOk;
    hide TakeCandidate;
    if !m.destroyed {
      CreateIce(m, from, false);
      var k := Known(m, from);
      var r := k.peers[from];
      match message {
        case IceMsg(c) => if c.Some? { TakeCandidateIce(k, r, c.value); }
        case OfferMsg(sdp) =>
          if sdp.Some? {
            SuspendIce(k, r, RollingBack(sdp.value));
            SuspendIce(k, r, AcceptingOffer(sdp.value));
          }
        case AnswerMsg(sdp) =>
          if sdp.Some? {
            FlagIce(k, r, true);
            SuspendIce(WithPeer(k, r, k.heap[r].(answering := true)), r, AcceptingAnswer(sdp.value));
          }
      }
    }
  }

  lemma FlagIce(m: Manager, r: Ref, answering: bool)
    requires r in m.heap && IceOk(m)
    ensures IceOk(WithPeer(m, r, m.heap[r].(answering := answering)))
  {
  }

  /** A flush in progress: the queued candidates are in nobody's hands but the caller's. */
  ghost predicate AccountedWith(p: Peer, tasks: seq<Task>, r: Ref, queued: seq<Candidate>) {
    p.received == p.submitted + multiset(p.pending) + HeldBy(tasks, r) + multiset(queued)
  }

  ghost predicate InHand(m: Manager, r: Ref, queued: seq<Candidate>) {
    && r in m.heap && AccountedWith(m.heap[r], m.tasks, r, queued) && PendingOk(m.heap[r], m.tasks, r)
    && forall q :: q in m.heap && q != r ==> Accounted(m.heap[q], m.tasks, q) && PendingOk(m.heap[q], m.tasks, q)
  }

  lemma HandIsEmpty(p: Peer, tasks: seq<Task>, r: Ref)
    requires AccountedWith(p, tasks, r, [])
    ensures Accounted(p, tasks, r)
  {
    hide HeldBy;
  }

  lemma HandedOver(p: Peer, tasks: seq<Task>, t: Task, r: Ref, queued: seq<Candidate>)
    requires AccountedWith(p, tasks, r, queued) && PendingOk(p, tasks, r) && queued != []
    requires t.peer == r && t.at.Flushing? && t.at.rest == queued[1..]
    ensures var q := p.(submitted := p.submitted + multiset{queued[0]});
            Accounted(q, tasks + [t], r) && PendingOk(q, tasks + [t], r)
  {
    hide HeldBy;
    HeldByOneMore(tasks, t, r);
    assert queued == [queued[0]] + queued[1..];
    assert multiset(queued) == multiset{queued[0]} + multiset(queued[1..]);
    if FlushDue(tasks, r) { DueStays(tasks, t, r); }
  }

  lemma OthersUnaffected(p: Peer, tasks: seq<Task>, t: Task, r: Ref)
    requires Accounted(p, tasks, r) && PendingOk(p, tasks, r) && t.peer != r
    ensures Accounted(p, tasks + [t], r) && PendingOk(p, tasks + [t], r)
  {
    hide HeldBy;
    HeldByOneMore(tasks, t, r);
    if FlushDue(tasks, r) { DueStays(tasks, t, r); }
  }

  lemma ContinueIce(m: Manager, r: Ref, queued: seq<Candidate>, answerNext: bool)
    requires InHand(m, r, queued)
    ensures IceOk(Continue(m, r, queued, answerNext))
  {
    hide Accounted;
    hide AccountedWith;
    hide PendingOk;
    if queued == [] {
      HandIsEmpty(m.heap[r], m.tasks, r);
      SuspendIce(m, r, Flushed(answerNext));
    } else {
      var t := Task(r, Flushing(queued[0], queued[1..], answerNext), None);
      HandedOver(m.heap[r], m.tasks, t, r, queued);
      forall q | q in m.heap && q != r
        ensures Accounted(m.heap[q], m.tasks + [t], q) && PendingOk(m.heap[q], m.tasks + [t], q)
      {
        OthersUnaffected(m.heap[q], m.tasks, t, q);
      }
    }
  }

  /** Taking a call out of the list leaves what it held in hand. */
  lemma TakenOut(m: Manager, k: nat)
    requires k < |m.tasks|
    ensures var t, n := m.tasks[k], m.(tasks := Without(m.tasks, k));
            && (forall q :: q in m.heap ==> HeldBy(m.tasks, q) == HeldBy(n.tasks, q) + Held(t, q))
            && (forall q :: q in m.heap && FlushDue(m.tasks, q) && !Due(t, q) ==> FlushDue(n.tasks, q))
  {
    hide HeldBy;
    hide Held;
    var t, n := m.tasks[k], m.(tasks := Without(m.tasks, k));
    forall q | q in m.heap ensures HeldBy(m.tasks, q) == HeldBy(n.tasks, q) + Held(t, q) {
      HeldByOneFewer(m.tasks, k, q);
    }
    forall q | q in m.heap && FlushDue(m.tasks, q) && !Due(t, q) ensures FlushDue(n.tasks, q) {
      var j :| 0 <= j < |m.tasks| && Due(m.tasks[j], q);
      assert Due(n.tasks[if j < k then j else j - 1], q);
    }
  }

  /** Everyone but the record of the call is as well off without it. */
  lemma TakenOutOthers(m: Manager, k: nat)
    requires IceOk(m) && k < |m.tasks|
    ensures var t, n := m.tasks[k], m.(tasks := Without(m.tasks, k));
            forall q :: q in m.heap && q != t.peer ==>
                Accounted(m.heap[q], n.tasks, q) && PendingOk(m.heap[q], n.tasks, q)
  {
    hide HeldBy;
    hide FlushDue;
    hide Rtc.Remote;
    TakenOut(m, k);
  }

  /** What the call held is now in hand; if it owed no flush, pending candidates are as they should be. */
  lemma TakenOutOwn(m: Manager, k: nat)
    requires Sound(m) && IceOk(m) && k < |m.tasks|
    ensures var t, n := m.tasks[k], m.(tasks := Without(m.tasks, k));
            && AccountedWith(m.heap[t.peer], n.tasks, t.peer, if t.at.Flushing? then t.at.rest else [])
            && (!Due(t, t.peer) ==> PendingOk(m.heap[t.peer], n.tasks, t.peer))
  {
    hide HeldBy;
    hide FlushDue;
    hide Rtc.Remote;
    TakenOut(m, k);
    assert Accounted(m.heap[m.tasks[k].peer], m.tasks, m.tasks[k].peer);
  }

  /** A call that neither holds candidates nor owes a flush may go. */
  lemma TakenOutIce(m: Manager, k: nat)
    requires Sound(m) && IceOk(m) && k < |m.tasks|
    requires !m.tasks[k].at.Flushing? && !Due(m.tasks[k], m.tasks[k].peer)
    ensures IceOk(m.(tasks := Without(m.tasks, k)))
  {
    hide Accounted;
    hide AccountedWith;
    hide PendingOk;
    TakenOutOthers(m, k);
    TakenOutOwn(m, k);
    HandIsEmpty(m.heap[m.tasks[k].peer], Without(m.tasks, k), m.tasks[k].peer);
  }

  lemma EmptiedIntoHand(p: Peer, tasks: seq<Task>, r: Ref)
    requires AccountedWith(p, tasks, r, [])
    ensures AccountedWith(p.(pending := []), tasks, r, p.pending) && PendingOk(p.(pending := []), tasks, r)
  {
    hide HeldBy;
  }

  lemma FlushIce(m: Manager, k: nat, answerNext: bool)
    requires Sound(m) && IceOk(m) && k < |m.tasks| && Due(m.tasks[k], m.tasks[k].peer)
    ensures IceOk(Flush(m.(tasks := Without(m.tasks, k)), m.tasks[k].peer, answerNext))
  {
    hide Accounted;
    hide AccountedWith;
    hide PendingOk;
    hide Continue;
    TakenOutOthers(m, k);
    TakenOutOwn(m, k);
    var r := m.tasks[k].peer;
    var n := m.(tasks := Without(m.tasks, k));
    var emptied := WithPeer(n, r, n.heap[r].(pending := []));
    EmptiedIntoHand(n.heap[r], n.tasks, r);
    ContinueIce(emptied, r, n.heap[r].pending, answerNext);
  }

  lemma ContinuingIce(m: Manager, k: nat)
    requires Sound(m) && IceOk(m) && k < |m.tasks| && m.tasks[k].at.Flushing?
    ensures IceOk(Continue(m.(tasks := Without(m.tasks, k)), m.tasks[k].peer,
        m.tasks[k].at.rest, m.tasks[k].at.answerNext))
  {
    hide Accounted;
    hide AccountedWith;
    hide PendingOk;
    hide Continue;
    TakenOutOthers(m, k);
    TakenOutOwn(m, k);
    ContinueIce(m.(tasks := Without(m.tasks, k)), m.tasks[k].peer, m.tasks[k].at.rest, m.tasks[k].at.answerNext);
  }

  lemma NumbersDoNotMatter(m: Manager, sent: seq<Sent>, next: nat)
    requires IceOk(m)
    ensures IceOk(m.(sent := sent)) && IceOk(m.(next := next))
  {
  }

  lemma ResumeIce(m: Manager, k: nat)
    requires Sound(m) && IceOk(m)
    ensures IceOk(Resume(m, k))
  {
    hide IceOk;
    hide Flush;
    hide Continue;
    if k < |m.tasks| && m.tasks[k].outcome.Some? {
      var t := m.tasks[k];
      var r, ok := t.peer, t.outcome.value;
      var n := m.(tasks := Without(m.tasks, k));
      if t.at.Flushing? {
        ContinuingIce(m, k);
      } else if Due(t, r) {
        FlushIce(m, k, t.at.AcceptingOffer?);
      } else {
        TakenOutIce(m, k);
        FlagIce(n, r, false);
        match t.at {
          case CreatingOffer =>
            SuspendIce(n, r, PlacingOffer(Sdp(AnOffer, m.next)));
            NumbersDoNotMatter(Suspend(n, r, PlacingOffer(Sdp(AnOffer, m.next))), m.sent, m.next + 1);
          case CreatingAnswer =>
            SuspendIce(n, r, PlacingAnswer(Sdp(AnAnswer, m.next)));
            NumbersDoNotMatter(Suspend(n, r, PlacingAnswer(Sdp(AnAnswer, m.next))), m.sent, m.next + 1);
          case RollingBack(theirs) => SuspendIce(n, r, AcceptingOffer(theirs));
          case Flushed(_) => SuspendIce(n, r, CreatingAnswer);
          case PlacingOffer(_) => NumbersDoNotMatter(n, Proceed(n, t, ok).sent, m.next);
          case PlacingAnswer(_) => NumbersDoNotMatter(n, Proceed(n, t, ok).sent, m.next);
          case _ =>
        }
      }
    }
  }

  /** A remote description appears by `setRemoteDescription` alone. */
  lemma RemoteAppears(c: Rtc, op: Operation)
    requires Perform(c, op).Some? && c.Remote().None? && Perform(c, op).value.Remote().Some?
    ensures op.SetRemote?
  {
  }

  lemma SettlingKeepsDue(m: Manager, k: nat, fails: bool, q: Ref)
    requires Sound(m) && q in m.heap && k < |m.tasks| && m.tasks[k].outcome.None?
    ensures var n := Settle(m, k, fails);
            && (FlushDue(m.tasks, q) ==> FlushDue(n.tasks, q))
            && (m.heap[q].rtc.Remote().None? && n.heap[q].rtc.Remote().Some? ==> FlushDue(n.tasks, q))
  {
    hide Perform;
    hide Rtc.Remote;
    var t, n := m.tasks[k], Settle(m, k, fails);
    if FlushDue(m.tasks, q) {
      var j :| 0 <= j < |m.tasks| && Due(m.tasks[j], q);
      assert Due(n.tasks[j], q);
    }
    if m.heap[q].rtc.Remote().None? && n.heap[q].rtc.Remote().Some? {
      RemoteAppears(m.heap[q].rtc, Awaited(t.at));
      assert Due(n.tasks[k], q);
    }
  }

  lemma SettlingKeepsRecord(m: Manager, k: nat, fails: bool, q: Ref)
    requires Sound(m) && q in m.heap && k < |m.tasks| && m.tasks[k].outcome.None?
    ensures var n := Settle(m, k, fails);
            && q in n.heap && n.heap[q] == m.heap[q].(rtc := n.heap[q].rtc)
            && |n.tasks| == |m.tasks| && n.tasks == m.tasks[k := n.tasks[k]]
            && n.tasks[k].peer == m.tasks[k].peer && n.tasks[k].at == m.tasks[k].at
            && n.heap.Keys == m.heap.Keys
  {
    hide Perform;
  }

  lemma SettleIce(m: Manager, k: nat, fails: bool)
    requires Sound(m) && IceOk(m)
    ensures IceOk(Settle(m, k, fails))
  {
    hide Perform;
    hide Rtc.Remote;
    hide HeldBy;
    hide FlushDue;
    if k < |m.tasks| && m.tasks[k].outcome.None? {
      var n := Settle(m, k, fails);
      forall q | q in m.heap ensures Accounted(n.heap[q], n.tasks, q) && PendingOk(n.heap[q], n.tasks, q) {
        SettlingKeepsRecord(m, k, fails, q);
        HeldByUpdated(m.tasks, k, n.tasks[k], q);
        SettlingKeepsDue(m, k, fails, q);
        hide Settle;
      }
    }
  }

  lemma ClosingIce(m: Manager, n: Manager)
    requires IceOk(m) && n.tasks == m.tasks && n.heap.Keys == m.heap.Keys
    requires forall r :: r in m.heap ==> n.heap[r] == m.heap[r] || n.heap[r] == Closed(m.heap[r])
    ensures IceOk(n)
  {
  }

  lemma HappenIce(m: Manager, e: Event)
    requires Sound(m) && IceOk(m)
    ensures IceOk(Happen(m, e))
  {
    hide IceOk;
    hide HandleSignal;
    hide Resume;
    hide Settle;
    match e {
      case Initialise => ClosingIce(m, Init(m));
      case Add(id, initiator) =>
        CreateIce(m, id, initiator);
        SuspendIce(Create(m, id, initiator), m.next, CreatingOffer);
      case Receive(from, message) => SignalIce(m, from, message);
      case Remove(id) => ClosingIce(m, RemovePeer(m, id));
      case DestroyAll => ClosingIce(m, Destroy(m));
      case Settles(k, fails) => SettleIce(m, k, fails);
      case Resumes(k) => ResumeIce(m, k);
      case Gathers(r, c) => ClosingIce(m, Gather(m, r, c));
    }
  }

  /**
   * At any point of any interleaving, the candidates received for a connection are those submitted to
   * it, those still pending and those an unfinished flush holds, each counted once; and candidates
   * are pending only while there is no remote description or a flush is still due.
   */
  lemma {:induction false} IceExactlyOnce(events: seq<Event>)
    ensures IceOk(Interleaving(events))
  {
    hide Happen;
    if events != [] {
      var n := |events| - 1;
      IceExactlyOnce(events[..n]);
      HappenIce(Interleaving(events[..n]), events[n]);
    }
  }

  /** The candidate an event brings to record `r`. */
  function Brings(m: Manager, e: Event, r: Ref): multiset<Candidate> {
    if e.Receive? && e.message.IceMsg? && e.message.candidate.Some? && !m.destroyed &&
        Known(m, e.from).peers[e.from] == r
    then multiset{e.message.candidate.value} else multiset{}
  }

  function Received(m: Manager, r: Ref): multiset<Candidate> {
    if r in m.heap then m.heap[r].received else multiset{}
  }

  ghost predicate SameReceived(m: Manager, n: Manager) {
    n.heap.Keys == m.heap.Keys && m.next <= n.next
    && forall r :: r in m.heap ==> n.heap[r].received == m.heap[r].received
  }

  lemma ContinueReceivesNothing(m: Manager, r: Ref, queued: seq<Candidate>, answerNext: bool)
    requires r in m.heap
    ensures SameReceived(m, Continue(m, r, queued, answerNext))
  {
  }

  lemma FlushReceivesNothing(m: Manager, r: Ref, answerNext: bool)
    requires r in m.heap
    ensures SameReceived(m, Flush(m, r, answerNext))
  {
    hide Continue;
    ContinueReceivesNothing(WithPeer(m, r, m.heap[r].(pending := [])), r, m.heap[r].pending, answerNext);
  }

  lemma ProceedReceivesNothing(m: Manager, t: Task, ok: bool)
    requires t.peer in m.heap
    ensures SameReceived(m, Proceed(m, t, ok))
  {
    hide Continue;
    hide Flush;
    hide Rtc.Local;
    match t.at {
      case Flushing(_, rest, answerNext) => ContinueReceivesNothing(m, t.peer, rest, answerNext);
      case AcceptingOffer(_) => FlushReceivesNothing(m, t.peer, true);
      case AcceptingAnswer(_) => FlushReceivesNothing(m, t.peer, false);
      case _ =>
    }
  }

  /** Nothing but a signal or a new peer touches the history. */
  lemma OthersReceiveNothing(m: Manager, e: Event)
    requires Sound(m) && !e.Receive? && !e.Add?
    ensures SameReceived(m, Happen(m, e))
  {
    hide Perform;
    hide Proceed;
    if e.Resumes? && e.k < |m.tasks| && m.tasks[e.k].outcome.Some? {
      ProceedReceivesNothing(m.(tasks := Without(m.tasks, e.k)), m.tasks[e.k], m.tasks[e.k].outcome.value);
    }
  }

  ghost predicate Grows(m: Manager, n: Manager, e: Event) {
    && m.heap.Keys <= n.heap.Keys <= m.heap.Keys + {m.next}
    && (forall r :: r in n.heap ==> n.heap[r].received == Received(m, r) + Brings(m, e, r))
    && (forall r :: r !in n.heap ==> Brings(m, e, r) == multiset{})
  }

  /** The peer of a signal, created or not, before the signal is looked at. */
  lemma KnownGrows(m: Manager, from: PeerId)
    requires Sound(m)
    ensures var k := Known(m, from);
            && m.heap.Keys <= k.heap.Keys <= m.heap.Keys + {m.next}
            && from in k.peers && k.peers[from] in k.heap
            && forall r :: r in k.heap ==> k.heap[r].received == Received(m, r)
  {
  }

  function Added(c: Option<Candidate>): multiset<Candidate> {
    if c.Some? then multiset{c.value} else multiset{}
  }

  lemma BookkeepingReceives(m: Manager, n: Manager, r: Ref, c: Option<Candidate>)
    requires OnlyBookkeeping(m, n, r, c)
    ensures n.heap.Keys == m.heap.Keys
    ensures forall q :: q in m.heap ==>
                          n.heap[q].received == m.heap[q].received + if q == r then Added(c) else multiset{}
  {
  }

  lemma SignalBrings(m: Manager, from: PeerId, message: Message)
    requires !m.destroyed
    ensures forall q :: Brings(m, Receive(from, message), q)
                     == if q == Known(m, from).peers[from] then Added(Carried(message)) else multiset{}
  {
  }

  lemma SignalGrows(m: Manager, from: PeerId, message: Message)
    requires Sound(m)
    ensures Grows(m, HandleSignal(m, from, message), Receive(from, message))
  {
    hide Added;
    hide Carried;
    hide Brings;
    hide OnlyBookkeeping;
    hide Received;
    hide Sound;
    hide Known;
    if m.destroyed {
      NothingGrows(m, Receive(from, message));
    } else {
      hide HandleSignal;
      var k, n := Known(m, from), HandleSignal(m, from, message);
      SignalIsBookkeeping(m, from, message);
      BookkeepingReceives(k, n, k.peers[from], Carried(message));
      SignalBrings(m, from, message);
      KnownGrows(m, from);
    }
  }

  lemma NothingGrows(m: Manager, e: Event)
    requires m.destroyed && e.Receive?
    ensures Grows(m, m, e)
  {
  }

  lemma AddGrows(m: Manager, id: PeerId, initiator: bool)
    requires Sound(m)
    ensures Grows(m, AddPeer(m, id, initiator), Add(id, initiator))
  {
  }

  lemma OthersGrow(m: Manager, e: Event)
    requires Sound(m) && !e.Receive? && !e.Add?
    ensures Grows(m, Happen(m, e), e)
  {
    hide Happen;
    OthersReceiveNothing(m, e);
  }

  lemma ReceivedGrows(m: Manager, e: Event)
    requires Sound(m)
    ensures Grows(m, Happen(m, e), e)
  {
    hide Grows;
    hide HandleSignal;
    hide AddPeer;
    match e {
      case Receive(from, message) => SignalGrows(m, from, message);
      case Add(id, initiator) => AddGrows(m, id, initiator);
      case _ => OthersGrow(m, e);
    }
  }

  /** The candidates the signals of a run carried to record `r`. */
  function Brought(events: seq<Event>, r: Ref): multiset<Candidate> {
    if events == [] then multiset{}
    else Brought(events[..|events| - 1], r) + Brings(Interleaving(events[..|events| - 1]), events[|events| - 1], r)
  }

  /** The history kept with each record is the history of the run. */
  lemma {:induction false} ReceivedIsWhatSignalsBrought(events: seq<Event>, r: Ref)
    ensures Received(Interleaving(events), r) == Brought(events, r)
  {
    hide Happen;
    hide Brings;
    if events != [] {
      var n := |events| - 1;
      var m := Interleaving(events[..n]);
      ReceivedIsWhatSignalsBrought(events[..n], r);
      ReceivedGrows(m, events[n]);
    }
  }

  // --- Roles ---------------------------------------------------------------------------------------

  /** Who is known, and in which role: what the room component relies on. */
  function Roles(m: Manager): map<PeerId, bool>
    requires Sound(m)
  {
    map id | id in m.peers :: m.heap[m.peers[id]].initiator
  }

  function AsMesh(m: Manager, offered: seq<PeerId>): MeetingRoom.Mesh
    requires Sound(m)
  {
    MeetingRoom.Mesh(Roles(m), offered)
  }

  ghost predicate KeepsRoles(m: Manager, n: Manager) {
    && n.peers == m.peers && n.heap.Keys == m.heap.Keys
    && forall r :: r in m.heap ==> n.heap[r].initiator == m.heap[r].initiator
  }

  function OffersBegun(tasks: seq<Task>): nat {
    if tasks == [] then 0
    else OffersBegun(tasks[..|tasks| - 1]) + if tasks[|tasks| - 1].at.CreatingOffer? then 1 else 0
  }

  lemma {:induction false} OfferBegins(tasks: seq<Task>, t: Task)
    ensures OffersBegun(tasks + [t]) == OffersBegun(tasks) + if t.at.CreatingOffer? then 1 else 0
  {
    assert (tasks + [t])[..|tasks|] == tasks;
  }

  lemma CreateRoles(m: Manager, id: PeerId, initiator: bool)
    requires Sound(m)
    ensures Sound(Create(m, id, initiator)) && Roles(Create(m, id, initiator)) == Roles(m)[id := initiator]
  {
    var n := Create(m, id, initiator);
    forall k | k in n.peers ensures n.heap[n.peers[k]].initiator == Roles(m)[id := initiator][k] {
    }
  }

  lemma KeptRoles(m: Manager, n: Manager)
    requires Sound(m) && KeepsRoles(m, n) && Sound(n)
    ensures Roles(n) == Roles(m)
  {
  }

  /** Adding a peer does to roles and offers what the room component reckons with. */
  lemma AddPeerIsMeshAddPeer(m: Manager, id: PeerId, initiator: bool, offered: seq<PeerId>)
    requires Sound(m) && !m.destroyed
    ensures var n := PeerManager.AddPeer(m, id, initiator);
            var mesh := MeetingRoom.AddPeer(AsMesh(m, offered), id, initiator);
            && Sound(n) && Roles(n) == mesh.roles
            && OffersBegun(n.tasks) - OffersBegun(m.tasks) == |mesh.offered| - |offered|
  {
    hide Roles;
    hide OffersBegun;
    hide Create;
    var n := PeerManager.AddPeer(m, id, initiator);
    HappenIsSound(m, Add(id, initiator));
    assert id in m.peers <==> id in Roles(m) by { RolesAreKnown(m); }
    if id !in m.peers {
      CreateRoles(m, id, initiator);
      assert Create(m, id, initiator).tasks == m.tasks by { CreateSuspendsNothing(m, id, initiator); }
      OfferBegins(m.tasks, Task(m.next, CreatingOffer, None));
      KeptRoles(Create(m, id, initiator), n);
    }
  }

  lemma RolesAreKnown(m: Manager)
    requires Sound(m)
    ensures Roles(m).Keys == m.peers.Keys
  {
  }

  lemma CreateSuspendsNothing(m: Manager, id: PeerId, initiator: bool)
    ensures Create(m, id, initiator).tasks == m.tasks
  {
  }

  lemma SignalKeepsRoles(m: Manager, from: PeerId, message: Message)
    requires Sound(m) && !m.destroyed
    ensures KeepsRoles(Known(m, from), HandleSignal(m, from, message))
  {
    hide HandleSignal;
    hide Known;
    SignalIsBookkeeping(m, from, message);
  }

  /** A signal makes its sender known as the driving side, and changes no other role. */
  lemma SignalIsMeshSignal(m: Manager, from: PeerId, message: Message, offered: seq<PeerId>)
    requires Sound(m) && !m.destroyed
    ensures Sound(HandleSignal(m, from, message))
    ensures Roles(HandleSignal(m, from, message)) == MeetingRoom.SignalFrom(AsMesh(m, offered), from).roles
  {
    hide Roles;
    hide HandleSignal;
    hide Create;
    SignalIsSound(m, from, message);
    CreateRoles(m, from, false);
    RolesAreKnown(m);
    SignalKeepsRoles(m, from, message);
    KeptRoles(Known(m, from), HandleSignal(m, from, message));
  }

  lemma RemovalIsMeshRemoval(m: Manager, id: PeerId, offered: seq<PeerId>)
    requires Sound(m)
    ensures Sound(PeerManager.RemovePeer(m, id))
    ensures Roles(PeerManager.RemovePeer(m, id)) == MeetingRoom.RemovePeer(AsMesh(m, offered), id).roles
  {
  }
}
