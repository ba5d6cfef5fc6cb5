// The candidates a connection finds for itself: each goes out once, in order, to the connection's remote.

module Trickle {
  import opened Model
  import opened Jsep
  import opened PeerManager
  import PeerProofs
  import Uninterrupted
  import Glare

  /** The candidates among what was sent to `id`, in order. */
  function IcesTo(sent: seq<Sent>, id: PeerId): seq<Candidate> {
    if sent == [] then []
    else
      var last := sent[|sent| - 1];
      IcesTo(sent[..|sent| - 1], id)
      + if last.to == id && last.message.IceMsg? && last.message.candidate.Some?
        then [last.message.candidate.value] else []
  }

  /** The candidates found, over a run, by connections to `id` that were open when they found them. */
  function Gathered(events: seq<Event>, id: PeerId): seq<Candidate> {
    if events == [] then []
    else
      var m, e := Interleaving(events[..|events| - 1]), events[|events| - 1];
      Gathered(events[..|events| - 1], id)
      + if e.Gathers? && e.r in m.heap && m.heap[e.r].remote == id && m.heap[e.r].rtc.open then [e.candidate] else []
  }

  lemma {:induction false} IcesOneMore(sent: seq<Sent>, one: Sent, id: PeerId)
    ensures IcesTo(sent + [one], id) == IcesTo(sent, id)
            + if one.to == id && one.message.IceMsg? && one.message.candidate.Some?
              then [one.message.candidate.value] else []
  {
    assert (sent + [one])[..|sent|] == sent;
  }

  /** What an event sends: a candidate found by an open connection, a description, or nothing. */
  ghost predicate SendsNoIce(m: Manager, n: Manager) {
    n.sent == m.sent || exists one: Sent :: n.sent == m.sent + [one] && !one.message.IceMsg?
  }

  lemma ProceedSendsNoIce(m: Manager, t: Task, ok: bool)
    requires t.peer in m.heap
    ensures SendsNoIce(m, Proceed(m, t, ok))
  {
    if Proceed(m, t, ok).sent != m.sent {
      var one := Proceed(m, t, ok).sent[|m.sent|];
      assert Proceed(m, t, ok).sent == m.sent + [one] && !one.message.IceMsg?;
    }
  }

  lemma OthersSendNoIce(m: Manager, e: Event)
    requires Sound(m) && !e.Gathers?
    ensures SendsNoIce(m, Happen(m, e))
  {
    hide Perform;
    hide Proceed;
    hide SendsNoIce;
    if e.Resumes? {
      if e.k < |m.tasks| && m.tasks[e.k].outcome.Some? {
        ProceedSendsNoIce(m.(tasks := Without(m.tasks, e.k)), m.tasks[e.k], m.tasks[e.k].outcome.value);
        SameSends(m.(tasks := Without(m.tasks, e.k)), m, Happen(m, e));
      } else {
        NothingSent(m, Happen(m, e));
      }
    } else {
      NothingSent(m, Happen(m, e));
    }
  }

  lemma SameSends(a: Manager, b: Manager, n: Manager)
    requires a.sent == b.sent && SendsNoIce(a, n)
    ensures SendsNoIce(b, n)
  {
  }

  lemma NothingSent(m: Manager, n: Manager)
    requires n.sent == m.sent
    ensures SendsNoIce(m, n)
  {
  }

  /** Over every interleaving, the candidates sent to `id` are, in order, those its open connections found. */
  lemma {:induction false} CandidatesGoOutInOrder(events: seq<Event>, id: PeerId)
    ensures IcesTo(Interleaving(events).sent, id) == Gathered(events, id)
  {
    if events != [] {
      var front, e := events[..|events| - 1], events[|events| - 1];
      var m := Interleaving(front);
      CandidatesGoOutInOrder(front, id);
      HappenIsSound(m, e);
      if e.Gathers? {
        if e.r in m.heap && m.heap[e.r].rtc.open {
          IcesOneMore(m.sent, Sent(m.heap[e.r].remote, IceMsg(Some(e.candidate))), id);
        }
        assert Gathered(front, id) + [] == Gathered(front, id);
      } else {
        hide Happen;
        OthersSendNoIce(m, e);
        if Happen(m, e).sent != m.sent {
          var one: Sent :| Happen(m, e).sent == m.sent + [one] && !one.message.IceMsg?;
          IcesOneMore(m.sent, one, id);
        }
        assert Gathered(front, id) + [] == Gathered(front, id);
      }
    }
  }

  /** An open connection is the one its remote is mapped to; a torn-down one sends nothing any more. */
  lemma {:induction false} OnlyMappedConnectionsSend(events: seq<Event>, r: Ref, c: Candidate)
    requires r in Interleaving(events).heap
    ensures var m := Interleaving(events); var n := Interleaving(events + [Gathers(r, c)]);
            var id := m.heap[r].remote;
            n == if id in m.peers && m.peers[id] == r then m.(sent := m.sent + [Sent(id, IceMsg(Some(c)))]) else m
  {
    assert (events + [Gathers(r, c)])[..|events|] == events;
    PeerProofs.OneConnectionPerPeer(events);
  }

  // --- The glare model's moves --------------------------------------------------------------------------------

  /**
   * A candidate found by an open connection does to the mesh what the glare model's move does to one side:
   * the peer is as it was, and the channel to the other holds the candidate last.
   */
  lemma GatheringIsAGlareMove(m: Manager, r: Ref, c: Candidate, y: Glare.Pair)
    requires r in m.heap && m.heap[r].rtc.open
    ensures var ice := IceMsg(Some(c));
            && Gather(m, r, c) == Uninterrupted.Outcome(m, r, Glare.Reaction(m.heap[r], [ice]), m.next)
            && (y.a == m.heap[r] ==>
                  var z := Glare.Make(y, Glare.Move.Gathers(Glare.A, c));
                  && z.a == Gather(m, r, c).heap[r] && z.toB == y.toB + [ice] && z.fromA == y.fromA + multiset{c}
                  && z == y.(toB := z.toB, fromA := z.fromA))
            && (y.b == m.heap[r] ==>
                  var z := Glare.Make(y, Glare.Move.Gathers(Glare.B, c));
                  && z.b == Gather(m, r, c).heap[r] && z.toA == y.toA + [ice] && z.fromB == y.fromB + multiset{c}
                  && z == y.(toA := z.toA, fromB := z.fromB))
  {
    assert Uninterrupted.Addressed(m.heap[r].remote, [IceMsg(Some(c))]) == [Sent(m.heap[r].remote, IceMsg(Some(c)))];
    assert m.heap[r := m.heap[r]] == m.heap;
  }
}
