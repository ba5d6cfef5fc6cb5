// The peer connection as the state machine of section 3.2 of RFC 8829, with rollback as in
// section 4.1.10.2 of RFC 8829. Descriptions and candidates are opaque values.

module Jsep {
  import opened Model

  datatype SdpKind = AnOffer | AnAnswer

  datatype Sdp = Sdp(kind: SdpKind, id: nat)

  type Candidate = nat

  datatype Signaling = Stable | HaveLocalOffer | HaveRemoteOffer

  datatype Rtc = Rtc(
    open: bool,
    signaling: Signaling,
    currentLocal: Option<Sdp>,
    pendingLocal: Option<Sdp>,
    currentRemote: Option<Sdp>,
    pendingRemote: Option<Sdp>)
  {
    function Local(): Option<Sdp> {
      if pendingLocal.Some? then pendingLocal else currentLocal
    }

    function Remote(): Option<Sdp> {
      if pendingRemote.Some? then pendingRemote else currentRemote
    }
  }

  const NEW: Rtc := Rtc(true, Stable, None, None, None, None)

  /** `Tick` stands for an await of something already done. */
  datatype Operation =
    | CreateOffer | CreateAnswer | SetLocal(sdp: Sdp) | SetRemote(sdp: Sdp) | Rollback
    | AddIceCandidate(candidate: Candidate) | Tick

  function SettledWith(local: Option<Sdp>, remote: Option<Sdp>): Rtc {
    Rtc(true, Stable, local, None, remote, None)
  }

  /** The connection after the operation, or nothing when the operation is rejected. */
  function Perform(c: Rtc, op: Operation): Option<Rtc> {
    if op.Tick? then Some(c)
    else if !c.open then None
    else
      match op
      case CreateOffer => if c.signaling.HaveRemoteOffer? then None else Some(c)
      case CreateAnswer => if c.signaling.HaveRemoteOffer? then Some(c) else None
      case SetLocal(sdp) =>
        if sdp.kind.AnOffer? then
          if c.signaling.HaveRemoteOffer? then None
          else Some(c.(signaling := HaveLocalOffer, pendingLocal := Some(sdp)))
        else if c.signaling.HaveRemoteOffer? then Some(SettledWith(Some(sdp), c.pendingRemote))
        else None
      case SetRemote(sdp) =>
        if sdp.kind.AnOffer? then
          if c.signaling.HaveLocalOffer? then None
          else Some(c.(signaling := HaveRemoteOffer, pendingRemote := Some(sdp)))
        else if c.signaling.HaveLocalOffer? then Some(SettledWith(c.pendingLocal, Some(sdp)))
        else None
      case Rollback =>
        if c.signaling.Stable? then None
        else Some(c.(signaling := Stable, pendingLocal := None, pendingRemote := None))
      case AddIceCandidate(_) => if c.Remote().Some? then Some(c) else None
      case Tick => Some(c)
  }

  /** What the two pending descriptions say about the signaling state. */
  predicate Consistent(c: Rtc) {
    && (c.pendingLocal.Some? <==> c.signaling.HaveLocalOffer?)
    && (c.pendingRemote.Some? <==> c.signaling.HaveRemoteOffer?)
  }

  lemma PerformIsConsistent(c: Rtc, op: Operation)
    requires Consistent(c) && Perform(c, op).Some?
    ensures Consistent(Perform(c, op).value)
  {
  }

  /** A rollback restores what held before the offer it undoes. */
  lemma RollbackUndoes(c: Rtc, sdp: Sdp)
    requires Consistent(c) && c.open && c.signaling.Stable? && sdp.kind.AnOffer?
    ensures Perform(c, SetLocal(sdp)).Some? && Perform(Perform(c, SetLocal(sdp)).value, Rollback) == Some(c)
    ensures Perform(c, SetRemote(sdp)).Some? && Perform(Perform(c, SetRemote(sdp)).value, Rollback) == Some(c)
  {
  }

  predicate SetsLocal(op: Operation, kind: SdpKind) {
    op.SetLocal? && op.sdp.kind == kind
  }

  predicate SetsRemote(op: Operation, kind: SdpKind) {
    op.SetRemote? && op.sdp.kind == kind
  }

  /** What is accepted in each state besides candidates, which need a remote description, and ticks. */
  predicate Accepted(signaling: Signaling, op: Operation) {
    match signaling
    case Stable => op.CreateOffer? || SetsLocal(op, AnOffer) || SetsRemote(op, AnOffer)
    case HaveLocalOffer => op.CreateOffer? || SetsLocal(op, AnOffer) || SetsRemote(op, AnAnswer) || op.Rollback?
    case HaveRemoteOffer => op.CreateAnswer? || SetsLocal(op, AnAnswer) || SetsRemote(op, AnOffer) || op.Rollback?
  }

  /** Which operations a connection accepts, and what these leave in each of its fields. */
  lemma PerformWrites(c: Rtc, op: Operation)
    ensures Perform(c, op).Some? <==>
              op.Tick? || (c.open && (Accepted(c.signaling, op) || (op.AddIceCandidate? && c.Remote().Some?)))
    ensures Perform(c, op).Some? ==>
              var d, answered := Perform(c, op).value, SetsLocal(op, AnAnswer) || SetsRemote(op, AnAnswer);
              && d.open == c.open
              && d.signaling == (if SetsLocal(op, AnOffer) then HaveLocalOffer
                                 else if SetsRemote(op, AnOffer) then HaveRemoteOffer
                                 else if answered || op.Rollback? then Stable else c.signaling)
              && d.pendingLocal == (if SetsLocal(op, AnOffer) then Some(op.sdp)
                                    else if answered || op.Rollback? then None else c.pendingLocal)
              && d.pendingRemote == (if SetsRemote(op, AnOffer) then Some(op.sdp)
                                     else if answered || op.Rollback? then None else c.pendingRemote)
              && d.currentLocal == (if SetsLocal(op, AnAnswer) then Some(op.sdp)
                                    else if SetsRemote(op, AnAnswer) then c.pendingLocal else c.currentLocal)
              && d.currentRemote == (if SetsRemote(op, AnAnswer) then Some(op.sdp)
                                     else if SetsLocal(op, AnAnswer) then c.pendingRemote else c.currentRemote)
  {
  }
}
