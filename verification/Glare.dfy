// Two peer managers facing each other over first-in first-out channels, each method one step.
// Either side may make an offer whenever it is stable, so offers can cross.

module Glare {
  import opened Model
  import opened Jsep
  import opened PeerManager

  // --- One side, one call --------------------------------------------------------------------

  datatype Reaction = Reaction(peer: Peer, replies: seq<Message>)

  function Submitted(p: Peer): Peer {
    p.(pending := [], submitted := p.submitted + multiset(p.pending))
  }

  function OnIce(p: Peer, c: Candidate): Peer {
    var q := p.(received := p.received + multiset{c});
    if p.rtc.Remote().None? then q.(pending := p.pending + [c]) else q.(submitted := p.submitted + multiset{c})
  }

  /** The offer is taken and answered, unless the connection refuses at some point. */
  function Accept(p: Peer, theirs: Sdp, answer: Sdp): Reaction {
    match Perform(p.rtc, SetRemote(theirs))
    case None => Reaction(p, [])
    case Some(taken) =>
      var flushed := Submitted(p.(rtc := taken));
      match Perform(taken, CreateAnswer)
      case None => Reaction(flushed, [])
      case Some(_) =>
        match Perform(taken, SetLocal(answer))
        case None => Reaction(flushed, [])
        case Some(done) => Reaction(flushed.(rtc := done), [AnswerMsg(done.Local())])
  }

  function OnOffer(p: Peer, theirs: Sdp, answer: Sdp): Reaction {
    var collision := p.rtc.signaling.HaveLocalOffer? || p.answering;
    if collision && p.initiator then Reaction(p, [])
    else if collision then
      match Perform(p.rtc, Rollback)
      case None => Reaction(p, [])
      case Some(back) => Accept(p.(rtc := back), theirs, answer)
    else Accept(p, theirs, answer)
  }

  function OnAnswer(p: Peer, theirs: Sdp): Peer {
    if !p.rtc.signaling.HaveLocalOffer? then p
    else
      match Perform(p.rtc, SetRemote(theirs))
      case None => p.(answering := false)
      case Some(done) => Submitted(p.(rtc := done, answering := false))
  }

  function React(p: Peer, message: Message, answer: Sdp): Reaction {
    match message
    case IceMsg(c) => Reaction(if c.None? then p else OnIce(p, c.value), [])
    case OfferMsg(sdp) => if sdp.None? then Reaction(p, []) else OnOffer(p, sdp.value, answer)
    case AnswerMsg(sdp) => Reaction(if sdp.None? then p else OnAnswer(p, sdp.value), [])
  }

  /** The offer half of `addPeer`. */
  function MakeOffer(p: Peer, offer: Sdp): Reaction {
    match Perform(p.rtc, SetLocal(offer))
    case None => Reaction(p, [])
    case Some(placed) => Reaction(p.(rtc := placed), [OfferMsg(placed.Local())])
  }

  // --- Two sides -----------------------------------------------------------------------------

  /** `fromA` and `fromB` are the candidates each side ever sent. */
  datatype Pair = Pair(
    a: Peer, b: Peer, toA: seq<Message>, toB: seq<Message>,
    minted: nat, fromA: multiset<Candidate>, fromB: multiset<Candidate>)

  datatype Side = A | B

  datatype Move = Offers(side: Side) | Gathers(side: Side, candidate: Candidate) | Delivers(side: Side)

  function Fresh(initiator: bool): Peer {
    Peer(0, initiator, NEW, [], false, multiset{}, multiset{})
  }

  function Facing(a: bool, b: bool): Pair {
    Pair(Fresh(a), Fresh(b), [], [], 0, multiset{}, multiset{})
  }

  function Make(y: Pair, move: Move): Pair {
    match move
    case Offers(A) =>
      if !y.a.rtc.signaling.Stable? then y
      else
        var r := MakeOffer(y.a, Sdp(AnOffer, y.minted));
        y.(a := r.peer, toB := y.toB + r.replies, minted := y.minted + 1)
    case Offers(B) =>
      if !y.b.rtc.signaling.Stable? then y
      else
        var r := MakeOffer(y.b, Sdp(AnOffer, y.minted));
        y.(b := r.peer, toA := y.toA + r.replies, minted := y.minted + 1)
    case Gathers(A, c) => y.(toB := y.toB + [IceMsg(Some(c))], fromA := y.fromA + multiset{c})
    case Gathers(B, c) => y.(toA := y.toA + [IceMsg(Some(c))], fromB := y.fromB + multiset{c})
    case Delivers(A) =>
      if y.toA == [] then y
      else
        var r := React(y.a, y.toA[0], Sdp(AnAnswer, y.minted));
        y.(a := r.peer, toA := y.toA[1..], toB := y.toB + r.replies, minted := y.minted + 1)
    case Delivers(B) =>
      if y.toB == [] then y
      else
        var r := React(y.b, y.toB[0], Sdp(AnAnswer, y.minted));
        y.(b := r.peer, toB := y.toB[1..], toA := y.toA + r.replies, minted := y.minted + 1)
  }

  function Play(y: Pair, moves: seq<Move>): Pair {
    if moves == [] then y else Make(Play(y, moves[..|moves| - 1]), moves[|moves| - 1])
  }

  // --- The negotiation in flight ------------------------------------------------------------------

  /** The offers and answers of a channel, in order. */
  function Talk(channel: seq<Message>): seq<Message> {
    if channel == [] then []
    else if channel[0].IceMsg? then Talk(channel[1..])
    else [channel[0]] + Talk(channel[1..])
  }

  lemma {:induction false} TalkAppends(channel: seq<Message>, more: seq<Message>)
    ensures Talk(channel + more) == Talk(channel) + Talk(more)
  {
    if channel == [] {
      assert channel + more == more;
    } else {
      assert (channel + more)[1..] == channel[1..] + more;
      TalkAppends(channel[1..], more);
    }
  }

  lemma TalkOfOne(m: Message)
    ensures Talk([m]) == if m.IceMsg? then [] else [m]
  {
  }

  predicate Resting(c: Rtc) {
    c.open && c.signaling.Stable? && c.pendingLocal.None? && c.pendingRemote.None?
  }

  predicate Offering(c: Rtc) {
    && c.open && c.signaling.HaveLocalOffer? && c.pendingRemote.None?
    && c.pendingLocal.Some? && c.pendingLocal.value.kind.AnOffer?
  }

  predicate IsOffer(m: Message) {
    m.OfferMsg? && m.sdp.Some? && m.sdp.value.kind.AnOffer?
  }

  predicate IsAnswer(m: Message) {
    m.AnswerMsg? && m.sdp.Some? && m.sdp.value.kind.AnAnswer?
  }

  /** Each side's remote description is the other's local one. */
  predicate Matched(a: Rtc, b: Rtc) {
    a.currentLocal == b.currentRemote && b.currentLocal == a.currentRemote
  }

  /** `x` has answered the offer `y` is still holding, and this is the answer. */
  predicate Answered(x: Rtc, y: Rtc, m: Message) {
    IsAnswer(m) && m.sdp == x.currentLocal && x.currentRemote == y.pendingLocal
  }

  /**
   * Who holds an offer, and what is on its way: the offer, its answer, an offer the impolite side will
   * ignore ahead of that answer, or an answer with the next offer right behind it.
   */
  ghost predicate Phase(a: Rtc, b: Rtc, toA: seq<Message>, toB: seq<Message>) {
    if Resting(a) && Resting(b) then
      toA == [] && toB == [] && Matched(a, b)
    else if Offering(a) && Resting(b) then
      || (toB == [OfferMsg(a.pendingLocal)] && toA == [])
      || (toB == [] && |toA| == 1 && Answered(b, a, toA[0]))
      || (toB == [] && |toA| == 2 && IsOffer(toA[0]) && Answered(b, a, toA[1]))
    else if Resting(a) && Offering(b) then
      || (toA == [OfferMsg(b.pendingLocal)] && toB == [])
      || (toA == [] && |toB| == 1 && Answered(a, b, toB[0]))
    else
      && Offering(a) && Offering(b)
      && (|| (toB == [OfferMsg(a.pendingLocal)] && (toA == [] || toA == [OfferMsg(b.pendingLocal)]))
          || (toA == [] && |toB| == 2 && Answered(a, b, toB[0]) && toB[1] == OfferMsg(a.pendingLocal))
          || (toB == [] && |toA| == 2 && Answered(b, a, toA[0]) && toA[1] == OfferMsg(b.pendingLocal))
          || (toB == [] && |toA| == 3 && IsOffer(toA[0]) && Answered(b, a, toA[1]) &&
              toA[2] == OfferMsg(b.pendingLocal)))
  }

  ghost predicate Negotiating(y: Pair) {
    && y.a.initiator && !y.b.initiator && !y.a.answering && !y.b.answering
    && Phase(y.a.rtc, y.b.rtc, Talk(y.toA), Talk(y.toB))
  }

  lemma OfferFromA(y: Pair)
    requires Negotiating(y)
    ensures Negotiating(Make(y, Offers(A)))
  {
    var o := OfferMsg(Some(Sdp(AnOffer, y.minted)));
    TalkAppends(y.toB, [o]);
  }

  lemma OfferFromB(y: Pair)
    requires Negotiating(y)
    ensures Negotiating(Make(y, Offers(B)))
  {
    var o := OfferMsg(Some(Sdp(AnOffer, y.minted)));
    TalkAppends(y.toA, [o]);
  }

  predicate Same(p: Peer, q: Peer) {
    q.initiator == p.initiator && q.answering == p.answering
  }

  lemma OfferIsTaken(p: Peer, o: Sdp, answer: Sdp)
    requires !p.answering && (Resting(p.rtc) || (Offering(p.rtc) && !p.initiator))
    requires o.kind.AnOffer? && answer.kind.AnAnswer?
    ensures var r := React(p, OfferMsg(Some(o)), answer);
            && Same(p, r.peer) && r.replies == [AnswerMsg(Some(answer))]
            && r.peer.rtc == SettledWith(Some(answer), Some(o))
  {
  }

  lemma OfferIsIgnored(p: Peer, o: Sdp, answer: Sdp)
    requires Offering(p.rtc) && p.initiator
    ensures React(p, OfferMsg(Some(o)), answer) == Reaction(p, [])
  {
  }

  lemma AnswerIsTaken(p: Peer, theirs: Sdp, answer: Sdp)
    requires !p.answering && Offering(p.rtc) && theirs.kind.AnAnswer?
    ensures var r := React(p, AnswerMsg(Some(theirs)), answer);
            && Same(p, r.peer) && r.replies == []
            && r.peer.rtc == SettledWith(p.rtc.pendingLocal, Some(theirs))
  {
  }

  lemma IceChangesNothing(p: Peer, c: Option<Candidate>, answer: Sdp)
    ensures var r := React(p, IceMsg(c), answer); Same(p, r.peer) && r.replies == [] && r.peer.rtc == p.rtc
  {
  }

  /** The first offer or answer of a channel, if the first message is one, heads its talk. */
  lemma {:induction false} TalkHeads(channel: seq<Message>)
    requires channel != []
    ensures channel[0].IceMsg? ==> Talk(channel) == Talk(channel[1..])
    ensures !channel[0].IceMsg? ==>
              Talk(channel) != [] && Talk(channel)[0] == channel[0] && Talk(channel)[1..] == Talk(channel[1..])
  {
  }

  lemma DeliveryToA(y: Pair)
    requires Negotiating(y)
    ensures Negotiating(Make(y, Delivers(A)))
  {
    hide React;
    hide Talk;
    if y.toA != [] {
      var m, answer := y.toA[0], Sdp(AnAnswer, y.minted);
      TalkHeads(y.toA);
      TalkAppends(y.toB, React(y.a, m, answer).replies);
      TalkOfOne(AnswerMsg(Some(answer)));
      TalkOfNone();
      if m.IceMsg? {
        IceChangesNothing(y.a, m.candidate, answer);
      } else if m.AnswerMsg? {
        AnswerIsTaken(y.a, m.sdp.value, answer);
      } else if Resting(y.a.rtc) {
        OfferIsTaken(y.a, m.sdp.value, answer);
      } else {
        OfferIsIgnored(y.a, m.sdp.value, answer);
      }
    }
  }

  lemma TalkOfNone()
    ensures Talk([]) == []
  {
  }

  lemma DeliveryToB(y: Pair)
    requires Negotiating(y)
    ensures Negotiating(Make(y, Delivers(B)))
  {
    hide React;
    hide Talk;
    if y.toB != [] {
      var m, answer := y.toB[0], Sdp(AnAnswer, y.minted);
      TalkHeads(y.toB);
      TalkAppends(y.toA, React(y.b, m, answer).replies);
      TalkOfOne(AnswerMsg(Some(answer)));
      TalkOfNone();
      if m.IceMsg? {
        IceChangesNothing(y.b, m.candidate, answer);
      } else if m.AnswerMsg? {
        AnswerIsTaken(y.b, m.sdp.value, answer);
      } else {
        OfferIsTaken(y.b, m.sdp.value, answer);
      }
    }
  }

  lemma MakeNegotiates(y: Pair, move: Move)
    requires Negotiating(y)
    ensures Negotiating(Make(y, move))
  {
    hide Make;
    hide Negotiating;
    match move {
      case Offers(side) => if side == A { OfferFromA(y); } else { OfferFromB(y); }
      case Delivers(side) => if side == A { DeliveryToA(y); } else { DeliveryToB(y); }
      case Gathers(side, c) => GatheringNegotiates(y, side, c);
    }
  }

  /** Candidates are no part of the negotiation. */
  lemma GatheringNegotiates(y: Pair, side: Side, c: Candidate)
    requires Negotiating(y)
    ensures Negotiating(Make(y, Move.Gathers(side, c)))
  {
    TalkAppends(y.toA, [IceMsg(Some(c))]);
    TalkAppends(y.toB, [IceMsg(Some(c))]);
    hide MakeOffer;
    hide React;
  }

  // --- Convergence ----------------------------------------------------------------------------------

  ghost predicate Quiet(y: Pair) {
    y.toA == [] && y.toB == []
  }

  /** Both stable, both described, and each side's remote description is the other's local one. */
  ghost predicate Converged(y: Pair) {
    && Resting(y.a.rtc) && Resting(y.b.rtc) && Matched(y.a.rtc, y.b.rtc)
    && y.a.rtc.currentLocal.Some? && y.a.rtc.currentRemote.Some?
  }

  /** Two sides at rest have been through a negotiation. */
  ghost predicate Described(y: Pair) {
    Resting(y.a.rtc) && Resting(y.b.rtc) ==> y.a.rtc.currentLocal.Some? && y.a.rtc.currentRemote.Some?
  }

  lemma DeliveryDescribes(y: Pair, move: Move)
    requires Negotiating(y) && Described(y) && move.Delivers?
    ensures Described(Make(y, move))
  {
    hide React;
    hide Talk;
    var (p, channel) := if move.side == A then (y.a, y.toA) else (y.b, y.toB);
    if channel != [] {
      var m, answer := channel[0], Sdp(AnAnswer, y.minted);
      TalkHeads(channel);
      if m.IceMsg? {
        IceChangesNothing(p, m.candidate, answer);
      } else if m.AnswerMsg? {
        AnswerIsTaken(p, m.sdp.value, answer);
      } else if Resting(p.rtc) || !p.initiator {
        OfferIsTaken(p, m.sdp.value, answer);
      } else {
        OfferIsIgnored(p, m.sdp.value, answer);
      }
    }
  }

  lemma MakeDescribes(y: Pair, move: Move)
    requires Negotiating(y) && (Described(y) || move.Offers?)
    ensures Described(Make(y, move))
  {
    hide Talk;
    if move.Delivers? {
      DeliveryDescribes(y, move);
    }
  }

  lemma {:induction false} EveryPlayNegotiates(moves: seq<Move>)
    ensures Negotiating(Play(Facing(true, false), moves))
    ensures (exists i :: 0 <= i < |moves| && moves[i].Offers?) ==> Described(Play(Facing(true, false), moves))
  {
    hide Make;
    hide Described;
    hide Phase;
    if moves == [] {
      NothingSaidYet();
    } else {
      var n := |moves| - 1;
      EveryPlayNegotiates(moves[..n]);
      MakeNegotiates(Play(Facing(true, false), moves[..n]), moves[n]);
      if i :| 0 <= i < |moves| && moves[i].Offers? {
        if i < n { assert moves[..n][i].Offers?; }
        MakeDescribes(Play(Facing(true, false), moves[..n]), moves[n]);
      }
    }
  }

  lemma NothingSaidYet()
    ensures Negotiating(Facing(true, false))
  {
  }

  // --- Candidates across the pair -----------------------------------------------------------------

  function Ices(channel: seq<Message>): multiset<Candidate> {
    if channel == [] then multiset{}
    else Ices(channel[..|channel| - 1]) + IcesOf(channel[|channel| - 1])
  }

  function IcesOf(m: Message): multiset<Candidate> {
    if m.IceMsg? && m.candidate.Some? then multiset{m.candidate.value} else multiset{}
  }

  lemma {:induction false} IcesOneMore(channel: seq<Message>, m: Message)
    ensures Ices(channel + [m]) == Ices(channel) + IcesOf(m)
  {
    assert (channel + [m])[..|channel|] == channel;
  }

  lemma {:induction false} IcesFirst(channel: seq<Message>)
    requires channel != []
    ensures Ices(channel) == IcesOf(channel[0]) + Ices(channel[1..])
  {
    hide IcesOf;
    var n := |channel| - 1;
    if n == 0 {
      assert channel[..0] == channel[1..];
    } else {
      IcesFirst(channel[..n]);
      var rest := channel[1..];
      assert channel[..n][1..] == rest[..n - 1] && rest[n - 1] == channel[n];
      assert Ices(rest) == Ices(rest[..n - 1]) + IcesOf(rest[n - 1]);
    }
  }

  ghost predicate SideIce(p: Peer) {
    && p.received == p.submitted + multiset(p.pending)
    && (p.pending != [] ==> p.rtc.Remote().None?)
  }

  lemma OnIceIce(p: Peer, c: Candidate)
    requires SideIce(p)
    ensures SideIce(OnIce(p, c)) && OnIce(p, c).received == p.received + multiset{c}
  {
    assert multiset(p.pending + [c]) == multiset(p.pending) + multiset{c};
  }

  lemma SubmittedIce(p: Peer, rtc: Rtc)
    requires SideIce(p)
    ensures SideIce(Submitted(p.(rtc := rtc))) && SideIce(Submitted(p.(rtc := rtc, answering := false)))
  {
  }

  /** Replacing the connection by one without a remote description cannot strand a candidate. */
  lemma RolledBackIce(p: Peer, back: Rtc)
    requires SideIce(p) && Perform(p.rtc, Rollback) == Some(back)
    ensures SideIce(p.(rtc := back))
  {
  }

  lemma AcceptIce(p: Peer, theirs: Sdp, answer: Sdp)
    requires SideIce(p)
    ensures var r := Accept(p, theirs, answer);
            && SideIce(r.peer) && r.peer.received == p.received
            && |r.replies| <= 1 && (r.replies != [] ==> r.replies[0].AnswerMsg?)
  {
    hide Perform;
    hide SideIce;
    if Perform(p.rtc, SetRemote(theirs)).Some? {
      var taken := Perform(p.rtc, SetRemote(theirs)).value;
      SubmittedIce(p, taken);
      if Perform(taken, SetLocal(answer)).Some? {
        SubmittedIce(p, Perform(taken, SetLocal(answer)).value);
      }
    }
  }

  lemma OnOfferIce(p: Peer, theirs: Sdp, answer: Sdp)
    requires SideIce(p)
    ensures var r := OnOffer(p, theirs, answer);
            && SideIce(r.peer) && r.peer.received == p.received
            && |r.replies| <= 1 && (r.replies != [] ==> r.replies[0].AnswerMsg?)
  {
    hide Perform;
    hide SideIce;
    hide Accept;
    AcceptIce(p, theirs, answer);
    if Perform(p.rtc, Rollback).Some? {
      RolledBackIce(p, Perform(p.rtc, Rollback).value);
      AcceptIce(p.(rtc := Perform(p.rtc, Rollback).value), theirs, answer);
    }
  }

  lemma OnAnswerIce(p: Peer, theirs: Sdp)
    requires SideIce(p)
    ensures SideIce(OnAnswer(p, theirs)) && OnAnswer(p, theirs).received == p.received
  {
    hide Perform;
    hide SideIce;
    NotAnsweringIce(p);
    if Perform(p.rtc, SetRemote(theirs)).Some? {
      SubmittedIce(p, Perform(p.rtc, SetRemote(theirs)).value);
    }
  }

  lemma ReactIce(p: Peer, m: Message, answer: Sdp)
    requires SideIce(p)
    ensures var r := React(p, m, answer);
            && SideIce(r.peer) && r.peer.received == p.received + IcesOf(m) && |r.replies| <= 1
            && (r.replies != [] ==> m.OfferMsg? && r.replies[0].AnswerMsg?)
  {
    hide SideIce;
    hide OnOffer;
    hide OnAnswer;
    hide OnIce;
    match m {
      case IceMsg(c) => if c.Some? { OnIceIce(p, c.value); }
      case OfferMsg(sdp) => if sdp.Some? { OnOfferIce(p, sdp.value, answer); }
      case AnswerMsg(sdp) => if sdp.Some? { OnAnswerIce(p, sdp.value); }
    }
  }

  lemma NotAnsweringIce(p: Peer)
    requires SideIce(p)
    ensures SideIce(p.(answering := false))
  {
  }

  lemma MakeOfferIce(p: Peer, offer: Sdp)
    requires SideIce(p) && offer.kind.AnOffer?
    ensures var r := MakeOffer(p, offer);
            && SideIce(r.peer) && r.peer.received == p.received
            && |r.replies| <= 1 && (r.replies != [] ==> r.replies[0].OfferMsg?)
  {
  }

  /** A candidate sent is on its way or has been received. */
  ghost predicate PairIce(y: Pair) {
    && SideIce(y.a) && y.fromB == Ices(y.toA) + y.a.received
    && SideIce(y.b) && y.fromA == Ices(y.toB) + y.b.received
  }

  lemma {:induction false} RepliesAreNoIce(channel: seq<Message>, replies: seq<Message>)
    requires |replies| <= 1 && (replies != [] ==> !replies[0].IceMsg?)
    ensures Ices(channel + replies) == Ices(channel)
  {
    if replies == [] {
      assert channel + replies == channel;
    } else {
      assert replies == [replies[0]];
    }
  }

  lemma OfferKeepsIce(y: Pair, side: Side)
    requires PairIce(y)
    ensures PairIce(Make(y, Offers(side)))
  {
    hide MakeOffer;
    hide Ices;
    hide SideIce;
    var p := if side == A then y.a else y.b;
    var channel := if side == A then y.toB else y.toA;
    MakeOfferIce(p, Sdp(AnOffer, y.minted));
    RepliesAreNoIce(channel, MakeOffer(p, Sdp(AnOffer, y.minted)).replies);
  }

  lemma DeliveryKeepsIce(y: Pair, side: Side)
    requires PairIce(y)
    ensures PairIce(Make(y, Delivers(side)))
  {
    hide React;
    hide Ices;
    hide SideIce;
    hide IcesOf;
    var p := if side == A then y.a else y.b;
    var channel := if side == A then y.toA else y.toB;
    var back := if side == A then y.toB else y.toA;
    if channel != [] {
      ReactIce(p, channel[0], Sdp(AnAnswer, y.minted));
      RepliesAreNoIce(back, React(p, channel[0], Sdp(AnAnswer, y.minted)).replies);
      IcesFirst(channel);
    }
  }

  lemma MakeIce(y: Pair, move: Move)
    requires PairIce(y)
    ensures PairIce(Make(y, move))
  {
    match move {
      case Offers(side) => OfferKeepsIce(y, side);
      case Gathers(side, c) => IcesOneMore(if side == A then y.toB else y.toA, IceMsg(Some(c)));
      case Delivers(side) => DeliveryKeepsIce(y, side);
    }
    hide Make;
  }

  lemma {:induction false} EveryPlayAccounts(a: bool, b: bool, moves: seq<Move>)
    ensures PairIce(Play(Facing(a, b), moves))
  {
    hide Make;
    if moves != [] {
      EveryPlayAccounts(a, b, moves[..|moves| - 1]);
      MakeIce(Play(Facing(a, b), moves[..|moves| - 1]), moves[|moves| - 1]);
    }
  }

  /**
   * Glare convergence. With exactly one impolite side, any run in which someone made an offer and
   * nothing is left on its way ends with both connections stable and each side's remote description
   * equal to the other's local one, however offers crossed; and every candidate either side sent has
   * been handed to the other's connection.
   */
  lemma {:induction false} GlareConverges(moves: seq<Move>)
    requires Quiet(Play(Facing(true, false), moves))
    requires exists i :: 0 <= i < |moves| && moves[i].Offers?
    ensures var y := Play(Facing(true, false), moves);
            && Converged(y)
            && y.a.pending == [] && y.a.submitted == y.fromB
            && y.b.pending == [] && y.b.submitted == y.fromA
  {
    hide Play;
    EveryPlayNegotiates(moves);
    EveryPlayAccounts(true, false, moves);
  }

  // --- How many messages ------------------------------------------------------------------------------

  function Weight(m: Message): nat {
    if m.OfferMsg? then 2 else 1
  }

  function WeightOf(channel: seq<Message>): nat {
    if channel == [] then 0 else WeightOf(channel[..|channel| - 1]) + Weight(channel[|channel| - 1])
  }

  /** What the messages on their way can still cause. */
  function Potential(y: Pair): nat {
    WeightOf(y.toA) + WeightOf(y.toB)
  }

  lemma {:induction false} WeightOneMore(channel: seq<Message>, m: Message)
    ensures WeightOf(channel + [m]) == WeightOf(channel) + Weight(m)
  {
    assert (channel + [m])[..|channel|] == channel;
  }

  lemma {:induction false} WeightFirst(channel: seq<Message>)
    requires channel != []
    ensures WeightOf(channel) == Weight(channel[0]) + WeightOf(channel[1..])
  {
    var n := |channel| - 1;
    if n == 0 {
      assert channel[..0] == channel[1..];
    } else {
      WeightFirst(channel[..n]);
      assert channel[..n][1..] == channel[1..][..n - 1];
    }
  }

  lemma {:induction false} RepliesWeigh(channel: seq<Message>, replies: seq<Message>, w: nat)
    requires |replies| <= 1 && (replies != [] ==> Weight(replies[0]) <= w)
    ensures WeightOf(channel + replies) <= WeightOf(channel) + w
  {
    if replies == [] {
      assert channel + replies == channel;
    } else {
      assert replies == [replies[0]];
    }
  }

  predicate Delivering(y: Pair, move: Move) {
    move.Delivers? && if move.side == A then y.toA != [] else y.toB != []
  }

  /** A delivery lowers the potential; only an offer or a candidate raises it. */
  lemma DeliveryPays(y: Pair, move: Move)
    requires PairIce(y)
    ensures Potential(Make(y, move)) + (if Delivering(y, move) then 1 else 0)
         <= Potential(y) + (if move.Offers? then 2 else if move.Gathers? then 1 else 0)
  {
    hide React;
    hide MakeOffer;
    hide WeightOf;
    hide SideIce;
    hide Ices;
    match move {
      case Offers(side) =>
        var (p, channel) := if side == A then (y.a, y.toB) else (y.b, y.toA);
        MakeOfferIce(p, Sdp(AnOffer, y.minted));
        RepliesWeigh(channel, MakeOffer(p, Sdp(AnOffer, y.minted)).replies, 2);
      case Gathers(side, c) => WeightOneMore(if side == A then y.toB else y.toA, IceMsg(Some(c)));
      case Delivers(side) =>
        var (p, channel, back) := if side == A then (y.a, y.toA, y.toB) else (y.b, y.toB, y.toA);
        if channel != [] {
          WeightFirst(channel);
          ReactIce(p, channel[0], Sdp(AnAnswer, y.minted));
          RepliesWeigh(back, React(p, channel[0], Sdp(AnAnswer, y.minted)).replies, Weight(channel[0]) - 1);
        }
    }
  }

  function Deliveries(y: Pair, moves: seq<Move>): nat {
    if moves == [] then 0
    else
      var n := |moves| - 1;
      Deliveries(y, moves[..n]) + if Delivering(Play(y, moves[..n]), moves[n]) then 1 else 0
  }

  function Caused(moves: seq<Move>): nat {
    if moves == [] then 0
    else
      var last := moves[|moves| - 1];
      Caused(moves[..|moves| - 1]) + if last.Offers? then 2 else if last.Gathers? then 1 else 0
  }

  /** Two deliveries per offer and one per candidate are all there can be, in whatever order they come. */
  lemma {:induction false} DeliveriesAreBounded(a: bool, b: bool, moves: seq<Move>)
    ensures Deliveries(Facing(a, b), moves) + Potential(Play(Facing(a, b), moves)) <= Caused(moves)
  {
    hide Make;
    if moves != [] {
      var n := |moves| - 1;
      DeliveriesAreBounded(a, b, moves[..n]);
      EveryPlayAccounts(a, b, moves[..n]);
      DeliveryPays(Play(Facing(a, b), moves[..n]), moves[n]);
    }
  }

  function OffersIn(moves: seq<Move>): nat {
    if moves == [] then 0 else OffersIn(moves[..|moves| - 1]) + if moves[|moves| - 1].Offers? then 1 else 0
  }

  /** What is caused is read off the offers made and the candidates sent. */
  lemma {:induction false} CausedIs(a: bool, b: bool, moves: seq<Move>)
    ensures var y := Play(Facing(a, b), moves); Caused(moves) == 2 * OffersIn(moves) + |y.fromA| + |y.fromB|
  {
    if moves != [] {
      var n := |moves| - 1;
      CausedIs(a, b, moves[..n]);
      SendingIsCounted(Play(Facing(a, b), moves[..n]), moves[n]);
    }
  }

  lemma SendingIsCounted(y: Pair, move: Move)
    ensures |Make(y, move).fromA| + |Make(y, move).fromB|
         == |y.fromA| + |y.fromB| + if move.Gathers? then 1 else 0
  {
    hide React;
    hide MakeOffer;
  }

  // --- Exactly one impolite side, and no other arrangement ----------------------------------------------

  /** Both sides have made an offer and neither has seen the other's. */
  function Crossed(a: bool, b: bool): Pair {
    Play(Facing(a, b), [Offers(A), Offers(B)])
  }

  lemma {:induction false} PlayInTwoParts(y: Pair, first: seq<Move>, more: seq<Move>)
    ensures Play(y, first + more) == Play(Play(y, first), more)
  {
    if more == [] {
      assert first + more == first;
    } else {
      var n := |more| - 1;
      PlayInTwoParts(y, first, more[..n]);
      assert (first + more)[..|first + more| - 1] == first + more[..n];
    }
  }

  function Mirror(y: Pair): Pair {
    Pair(y.b, y.a, y.toB, y.toA, y.minted, y.fromB, y.fromA)
  }

  function Opposite(side: Side): Side {
    if side == A then B else A
  }

  function MirrorMove(move: Move): Move {
    match move
    case Offers(side) => Offers(Opposite(side))
    case Gathers(side, c) => Move.Gathers(Opposite(side), c)
    case Delivers(side) => Delivers(Opposite(side))
  }

  function MirrorMoves(moves: seq<Move>): seq<Move> {
    if moves == [] then [] else MirrorMoves(moves[..|moves| - 1]) + [MirrorMove(moves[|moves| - 1])]
  }

  lemma {:induction false} MirrorPlay(y: Pair, moves: seq<Move>)
    ensures Play(Mirror(y), MirrorMoves(moves)) == Mirror(Play(y, moves))
  {
    if moves != [] {
      var n := |moves| - 1;
      MirrorPlay(y, moves[..n]);
      assert MirrorMoves(moves)[..|MirrorMoves(moves)| - 1] == MirrorMoves(moves[..n]);
      MirrorMake(Play(y, moves[..n]), moves[n]);
    }
  }

  lemma MirrorMake(y: Pair, move: Move)
    ensures Make(Mirror(y), MirrorMove(move)) == Mirror(Make(y, move))
  {
    hide React;
    hide MakeOffer;
  }

  lemma {:induction false} MirrorKeepsOffer(moves: seq<Move>)
    requires exists i :: 0 <= i < |moves| && moves[i].Offers?
    ensures exists i :: 0 <= i < |MirrorMoves(moves)| && MirrorMoves(moves)[i].Offers?
  {
    var n := |moves| - 1;
    if moves[n].Offers? {
      assert MirrorMoves(moves)[|MirrorMoves(moves)| - 1].Offers?;
    } else {
      var i :| 0 <= i < |moves| && moves[i].Offers?;
      assert moves[..n][i].Offers?;
      MirrorKeepsOffer(moves[..n]);
      var j :| 0 <= j < |MirrorMoves(moves[..n])| && MirrorMoves(moves[..n])[j].Offers?;
      assert MirrorMoves(moves)[j].Offers?;
    }
  }

  /** A side created as initiator makes an offer, and no other side ever does. */
  ghost predicate InitiatorsOffer(a: bool, b: bool, moves: seq<Move>) {
    && (Offers(A) in moves <==> a)
    && (Offers(B) in moves <==> b)
  }

  lemma CrossedOffers(a: bool, b: bool)
    ensures var y := Crossed(a, b); var oA, oB := Sdp(AnOffer, 0), Sdp(AnOffer, 1);
            && y.a == Fresh(a).(rtc := NEW.(signaling := HaveLocalOffer, pendingLocal := Some(oA)))
            && y.b == Fresh(b).(rtc := NEW.(signaling := HaveLocalOffer, pendingLocal := Some(oB)))
            && y.toA == [OfferMsg(Some(oB))] && y.toB == [OfferMsg(Some(oA))] && y.minted == 2
  {
    var moves := [Offers(A), Offers(B)];
    assert moves[..1] == [Offers(A)] && moves[..1][..0] == [];
    assert Play(Facing(a, b), moves[..1]) == Make(Facing(a, b), Offers(A));
  }

  lemma {:induction false} PlayTwo(y: Pair, first: Move, second: Move)
    ensures Play(y, [first, second]) == Make(Make(y, first), second)
  {
    var moves := [first, second];
    assert moves[..1] == [first] && moves[..1][..0] == [];
    assert Play(y, moves[..1]) == Make(y, first);
  }

  /** Two impolite sides ignore each other and wait for ever. */
  lemma TwoImpoliteSidesDeadlock()
    ensures var y := Play(Crossed(true, true), [Delivers(A), Delivers(B)]); Quiet(y) && !Converged(y)
  {
    CrossedOffers(true, true);
    PlayTwo(Crossed(true, true), Delivers(A), Delivers(B));
  }

  /** Two passive sides never say anything, so neither is ever described. */
  lemma {:induction false} TwoPassiveSidesStayUndescribed(moves: seq<Move>)
    requires InitiatorsOffer(false, false, moves)
    ensures var y := Play(Facing(false, false), moves);
            && y.a.rtc == NEW && y.b.rtc == NEW && Talk(y.toA) == [] && Talk(y.toB) == [] && !Converged(y)
  {
    hide React;
    if moves != [] {
      var n := |moves| - 1;
      assert moves[n] in moves && moves[n] != Offers(A) && moves[n] != Offers(B);
      TwoPassiveSidesStayUndescribed(moves[..n]);
      PassiveMove(Play(Facing(false, false), moves[..n]), moves[n]);
    }
  }

  lemma PassiveMove(y: Pair, move: Move)
    requires !move.Offers? && Talk(y.toA) == [] && Talk(y.toB) == []
    ensures var z := Make(y, move);
            z.a.rtc == y.a.rtc && z.b.rtc == y.b.rtc && Talk(z.toA) == [] && Talk(z.toB) == []
  {
    hide React;
    hide Talk;
    match move {
      case Gathers(_, c) =>
        TalkAppends(y.toA, [IceMsg(Some(c))]);
        TalkAppends(y.toB, [IceMsg(Some(c))]);
        TalkOfOne(IceMsg(Some(c)));
      case Delivers(side) =>
        var p := if side == A then y.a else y.b;
        var channel := if side == A then y.toA else y.toB;
        if channel != [] {
          TalkHeads(channel);
          IceChangesNothing(p, channel[0].candidate, Sdp(AnAnswer, y.minted));
          assert y.toA + [] == y.toA && y.toB + [] == y.toB;
        }
    }
  }

  lemma {:induction false} OneInitiatorConverges(a: bool, b: bool, moves: seq<Move>)
    requires a != b && InitiatorsOffer(a, b, moves) && Quiet(Play(Facing(a, b), moves))
    ensures Converged(Play(Facing(a, b), moves))
  {
    hide Play;
    hide MirrorMoves;
    var i :| 0 <= i < |moves| && moves[i] == Offers(if a then A else B);
    if a {
      GlareConverges(moves);
    } else {
      MirrorPlay(Facing(false, true), moves);
      assert Mirror(Facing(false, true)) == Facing(true, false);
      MirrorKeepsOffer(moves);
      GlareConverges(MirrorMoves(moves));
    }
  }

  /** The run ends with nothing on its way, but not with a connection. */
  ghost predicate Fails(a: bool, b: bool, moves: seq<Move>) {
    && InitiatorsOffer(a, b, moves)
    && Quiet(Play(Facing(a, b), moves)) && !Converged(Play(Facing(a, b), moves))
  }

  lemma TwoInitiatorsMayFail()
    ensures exists moves :: Fails(true, true, moves)
  {
    hide Converged;
    hide Quiet;
    hide Make;
    var offers: seq<Move> := [Offers(A), Offers(B)];
    var both: seq<Move> := offers + [Delivers(A), Delivers(B)];
    TwoImpoliteSidesDeadlock();
    PlayInTwoParts(Facing(true, true), offers, [Delivers(A), Delivers(B)]);
    assert both[0] == Offers(A) && both[1] == Offers(B);
    assert Fails(true, true, both);
  }

  lemma TwoPassiveSidesFail()
    ensures exists moves :: Fails(false, false, moves)
  {
    var none: seq<Move> := [];
    TwoPassiveSidesStayUndescribed(none);
    assert Fails(false, false, none);
  }

  /**
   * When initiators make offers and nobody else does, every quiet run converges exactly if one side is the
   * initiator and the other is not: two initiators may wait for ever, two passive sides never begin.
   */
  lemma ConvergesIff(a: bool, b: bool)
    ensures (forall moves :: !Fails(a, b, moves)) <==> a != b
  {
    hide Fails;
    if a != b {
      forall moves ensures !Fails(a, b, moves) {
        OneInitiatorSucceeds(a, b, moves);
      }
    } else if a {
      TwoInitiatorsMayFail();
    } else {
      TwoPassiveSidesFail();
    }
  }

  lemma OneInitiatorSucceeds(a: bool, b: bool, moves: seq<Move>)
    requires a != b
    ensures !Fails(a, b, moves)
  {
    hide Converged;
    hide Quiet;
    hide InitiatorsOffer;
    hide Play;
    if InitiatorsOffer(a, b, moves) && Quiet(Play(Facing(a, b), moves)) {
      OneInitiatorConverges(a, b, moves);
    }
  }
}
