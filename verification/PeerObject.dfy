// The peer manager as the object the room component holds. Each method runs one piece of the
// source's async method of the same name, from its call or an await to the next await.

module PeerObject {
  import opened Model
  import opened Jsep
  import opened PeerManager

  lemma OneMoreClosed(heap: map<Ref, Peer>, refs: set<Ref>, r: Ref)
    requires r in heap && r !in refs
    ensures ClosedAll(heap, refs)[r := Closed(ClosedAll(heap, refs)[r])] == ClosedAll(heap, refs + {r})
  {
  }

  class Mesh {
    var peers: map<PeerId, Ref>
    var heap: map<Ref, Peer>
    var tasks: seq<Task>
    var destroyed: bool
    var sent: seq<Sent>
    var next: nat

    constructor ()
      ensures View() == START
    {
      peers, heap, tasks, destroyed, sent, next := map[], map[], [], false, [], 0;
    }

    function View(): Manager
      reads this
    {
      Manager(peers, heap, tasks, destroyed, sent, next)
    }

    method Initialise()
      modifies this
      ensures View() == Init(old(View()))
    {
      destroyed := false;
    }

    method CreatePeer(id: PeerId, initiator: bool) returns (r: Ref)
      modifies this
      ensures View() == Create(old(View()), id, initiator) && r == old(next)
    {
      r := next;
      heap := heap[r := Peer(id, initiator, NEW, [], false, multiset{}, multiset{})];
      peers := peers[id := r];
      next := next + 1;
    }

    method Await(r: Ref, at: Point)
      modifies this`tasks
      ensures View() == Suspend(old(View()), r, at)
    {
      tasks := tasks + [Task(r, at, None)];
    }

    method AddPeer(id: PeerId, initiator: bool)
      modifies this
      ensures View() == PeerManager.AddPeer(old(View()), id, initiator)
    {
      if destroyed || id in peers { return; }
      var r := CreatePeer(id, initiator);
      if initiator { Await(r, CreatingOffer); }
    }

    method AddCandidate(r: Ref, c: Candidate)
      requires r in heap
      modifies this
      ensures View() == TakeCandidate(old(View()), r, c)
    {
      var p := heap[r].(received := heap[r].received + multiset{c});
      if p.rtc.Remote().None? {
        heap := heap[r := p.(pending := p.pending + [c])];
        return;
      }
      heap := heap[r := p.(submitted := p.submitted + multiset{c})];
      Await(r, AddingCandidate(c));
    }

    method HandleOffer(r: Ref, sdp: Sdp)
      requires r in heap
      modifies this
      ensures View() == TakeOffer(old(View()), r, sdp)
    {
      var collision := heap[r].rtc.signaling == HaveLocalOffer || heap[r].answering;
      if collision && heap[r].initiator { return; }
      if collision {
        Await(r, RollingBack(sdp));
      } else {
        Await(r, AcceptingOffer(sdp));
      }
    }

    method HandleSignal(from: PeerId, message: Message)
      requires Sound(View())
      modifies this
      ensures View() == PeerManager.HandleSignal(old(View()), from, message)
    {
      if destroyed { return; }
      var r: Ref;
      if from in peers { r := peers[from]; } else { r := CreatePeer(from, false); }
      match message {
        case IceMsg(c) => if c.Some? { AddCandidate(r, c.value); }
        case OfferMsg(sdp) => if sdp.Some? { HandleOffer(r, sdp.value); }
        case AnswerMsg(sdp) =>
          if sdp.Some? && heap[r].rtc.signaling == HaveLocalOffer {
            heap := heap[r := heap[r].(answering := true)];
            Await(r, AcceptingAnswer(sdp.value));
          }
      }
    }

    method Teardown(r: Ref)
      requires r in heap
      modifies this`heap
      ensures heap == old(heap)[r := Closed(old(heap)[r])]
    {
      heap := heap[r := heap[r].(rtc := heap[r].rtc.(open := false))];
    }

    method RemovePeer(id: PeerId)
      requires Sound(View())
      modifies this
      ensures View() == PeerManager.RemovePeer(old(View()), id)
    {
      if id !in peers { return; }
      var r := peers[id];
      peers := peers - {id};
      Teardown(r);
    }

    method Destroy()
      requires Sound(View())
      modifies this
      ensures View() == PeerManager.Destroy(old(View()))
    {
      destroyed := true;
      var todo := peers.Values;
      while todo != {}
        invariant todo <= peers.Values && peers == old(peers)
        invariant heap == ClosedAll(old(heap), peers.Values - todo)
        invariant destroyed && tasks == old(tasks) && sent == old(sent) && next == old(next)
        decreases todo
      {
        var r :| r in todo;
        OneMoreClosed(old(heap), peers.Values - todo, r);
        assert peers.Values - (todo - {r}) == peers.Values - todo + {r};
        Teardown(r);
        todo := todo - {r};
      }
      assert peers.Values - todo == peers.Values;
      peers := map[];
    }

    method FlushFrom(r: Ref, queued: seq<Candidate>, answerNext: bool)
      requires r in heap
      modifies this
      ensures View() == Continue(old(View()), r, queued, answerNext)
    {
      if queued == [] {
        Await(r, Flushed(answerNext));
      } else {
        heap := heap[r := heap[r].(submitted := heap[r].submitted + multiset{queued[0]})];
        Await(r, Flushing(queued[0], queued[1..], answerNext));
      }
    }

    method FlushCandidates(r: Ref, answerNext: bool)
      requires r in heap
      modifies this
      ensures View() == Flush(old(View()), r, answerNext)
    {
      var queued := heap[r].pending;
      heap := heap[r := heap[r].(pending := [])];
      FlushFrom(r, queued, answerNext);
    }

    /** `onicecandidate`: a torn-down connection has lost its handler. */
    method CandidateFound(r: Ref, c: Candidate)
      modifies this`sent
      ensures View() == Gather(old(View()), r, c)
    {
      if r in heap && heap[r].rtc.open {
        sent := sent + [Sent(heap[r].remote, IceMsg(Some(c)))];
      }
    }

    /** The browser settles the operation that call `k` awaits. */
    method SettleCall(k: nat, fails: bool)
      requires Sound(View())
      modifies this
      ensures View() == Settle(old(View()), k, fails)
    {
      if k >= |tasks| || tasks[k].outcome.Some? { return; }
      var t := tasks[k];
      var result := Perform(heap[t.peer].rtc, Awaited(t.at));
      var ok := result.Some? && (!fails || t.at.Flushed?);
      if ok { heap := heap[t.peer := heap[t.peer].(rtc := result.value)]; }
      tasks := tasks[k := t.(outcome := Some(ok))];
    }

    /** Call `k` runs on from its await. */
    method ResumeCall(k: nat)
      requires Sound(View())
      modifies this
      ensures View() == Resume(old(View()), k)
    {
      if k >= |tasks| || tasks[k].outcome.None? { return; }
      var t, ok := tasks[k], tasks[k].outcome.value;
      tasks := Without(tasks, k);
      match t.at {
        case CreatingOffer =>
          if ok {
            Await(t.peer, PlacingOffer(Sdp(AnOffer, next)));
            next := next + 1;
          }
        case PlacingOffer(_) =>
          if ok { sent := sent + [Sent(heap[t.peer].remote, OfferMsg(heap[t.peer].rtc.Local()))]; }
        case RollingBack(theirs) => if ok { Await(t.peer, AcceptingOffer(theirs)); }
        case AcceptingOffer(_) => if ok { FlushCandidates(t.peer, true); }
        case AcceptingAnswer(_) => if ok { FlushCandidates(t.peer, false); } else { StopAnswering(t.peer); }
        case Flushing(_, rest, answerNext) => FlushFrom(t.peer, rest, answerNext);
        case Flushed(answerNext) => if answerNext { Await(t.peer, CreatingAnswer); } else { StopAnswering(t.peer); }
        case CreatingAnswer =>
          if ok {
            Await(t.peer, PlacingAnswer(Sdp(AnAnswer, next)));
            next := next + 1;
          }
        case PlacingAnswer(_) =>
          if ok { sent := sent + [Sent(heap[t.peer].remote, AnswerMsg(heap[t.peer].rtc.Local()))]; }
        case AddingCandidate(_) =>
      }
    }

    method StopAnswering(r: Ref)
      requires r in heap
      modifies this
      ensures View() == DoneAnswering(old(View()), r)
    {
      heap := heap[r := heap[r].(answering := false)];
    }
  }
}
