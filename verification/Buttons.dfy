// What the client shows of its own: the microphone and camera buttons and what is sent, column by
// column, and how a host's mute reaches them through the server.

module Buttons {
  import opened Model
  import opened Protocol
  import opened Registry
  import opened Server
  import opened ServerProofs
  import opened Guarantees
  import opened Introductions
  import opened MeetingRoom
  import MeetingStore
  import opened Columns
  import opened Logs
  import Initiator
  import Replica

  // --- One frame, one action --------------------------------------------------------------------------------

  predicate Dismisses(f: ServerFrame) {
    f.HostRemovedYou? || f.MeetingEnded?
  }

  /** The client's own entry as the store keeps it beside the roster. */
  function OwnEntry(c: Client, f: ServerFrame): Option<RosterEntry> {
    match f
    case RoomState(entries, you) =>
      if MeetingStore.Listed(entries, you.id)
      then Some(you.(flags := Flags(c.media.isMuted, c.media.isVideoOn, you.flags.handRaised))) else Some(you)
    case PeerUpdated(r, flags) =>
      if r in c.store.participants && c.store.self.Some? && c.store.self.value.id == r
      then Some(c.store.self.value.(flags := flags)) else c.store.self
    case HostRemovedYou(_) => None
    case MeetingEnded(_) => None
    case _ => c.store.self
  }

  /** What a frame makes of each field but the roster and the mesh. */
  lemma FrameWrites(c: Client, f: ServerFrame)
    requires !c.left
    ensures var d := Dispatch(c, f);
            && d.store.isMuted == (match f
                                   case RoomState(_, _) => c.media.isMuted
                                   case HostMutedYou(_) => true
                                   case HostRemovedYou(_) => false
                                   case MeetingEnded(_) => false
                                   case _ => c.store.isMuted)
            && d.store.isVideoOn == (match f
                                     case RoomState(_, _) => c.media.isVideoOn
                                     case HostRemovedYou(_) => true
                                     case MeetingEnded(_) => true
                                     case _ => c.store.isVideoOn)
            && d.store.self == OwnEntry(c, f)
            && d.selfId == (if f.RoomState? then Some(f.you.id) else c.selfId)
            && d.left == Dismisses(f) && d.media == c.media
            && d.outbox == c.outbox + (match f
                 case RoomState(_, _) =>
                   [StateUpdate(Changes(Some(c.media.isMuted), Some(c.media.isVideoOn), None))]
                 case PeerJoined(p) => if p.id in c.mesh.roles then [] else [Signal(Offer, Some(p.id), 0)]
                 case _ => [])
  {
    assert c.outbox + [] == c.outbox;
    if f.RoomState? { MeetingStore.SnapshotBinds(f.participants); }
  }

  lemma {:induction false} AddedPeersAre(m: Mesh, entries: seq<RosterEntry>, you: RowId)
    ensures var n := AddPeers(m, entries, you);
            && n.offered == m.offered
            && (forall r :: r in n.roles <==> r in m.roles || (r != you && MeetingStore.Listed(entries, r)))
            && (forall r :: r in n.roles ==> n.roles[r] == (r in m.roles && m.roles[r]))
  {
    if entries != [] {
      var last := |entries| - 1;
      AddedPeersAre(m, entries[..last], you);
      ListedOneMore(entries);
    }
  }

  lemma ListedOneMore(entries: seq<RosterEntry>)
    requires entries != []
    ensures var last := |entries| - 1;
            forall r :: MeetingStore.Listed(entries, r)
                        <==> r == entries[last].id || MeetingStore.Listed(entries[..last], r)
  {
    var last := |entries| - 1;
    forall r ensures MeetingStore.Listed(entries, r) <==>
                       r == entries[last].id || MeetingStore.Listed(entries[..last], r) {
      if i :| 0 <= i < last && entries[..last][i].id == r { assert entries[i].id == r; }
    }
  }

  /** The peers a client has a connection to after a frame. */
  predicate Knows(c: Client, f: ServerFrame, r: RowId) {
    match f
    case RoomState(entries, you) => r in c.mesh.roles || (r != you.id && MeetingStore.Listed(entries, r))
    case PeerJoined(p) => r in c.mesh.roles || r == p.id
    case Relayed(_, from, _) => r in c.mesh.roles || r == from
    case PeerLeft(x) => r in c.mesh.roles && r != x
    case HostRemovedYou(_) => false
    case MeetingEnded(_) => false
    case _ => r in c.mesh.roles
  }

  /** Which peers a frame adds and drops; only an arrival makes this side the initiator, and then it offers. */
  lemma MeshWrites(c: Client, f: ServerFrame)
    requires !c.left
    ensures var m := Dispatch(c, f).mesh;
            && (forall r :: r in m.roles <==> Knows(c, f, r))
            && (forall r :: r in m.roles ==> m.roles[r] == if r in c.mesh.roles then c.mesh.roles[r] else f.PeerJoined?)
            && m.offered == c.mesh.offered + (match f
                 case PeerJoined(p) => if p.id in c.mesh.roles then [] else [p.id]
                 case _ => [])
  {
    assert c.mesh.offered + [] == c.mesh.offered;
    if f.RoomState? {
      AddedPeersAre(c.mesh, f.participants, f.you.id);
      hide AddPeers;
    }
  }

  /** A host's mute leaves the client muted, and everything else of it as it was. */
  lemma HostMuteMutesOnly(c: Client, actor: RowId)
    requires !c.left
    ensures var d := Dispatch(c, HostMutedYou(actor));
            && d.store.isMuted && d.store.participants == c.store.participants && d.store.self == c.store.self
            && d.store.isVideoOn == c.store.isVideoOn && d.mesh == c.mesh && d.outbox == c.outbox
            && d.selfId == c.selfId && d.media == c.media && !d.left
  {
  }

  /** The user's toggles flip what is shown and report what is now shown, of that button alone. */
  lemma ToggleWrites(c: Client, a: Action)
    requires !c.left
    ensures var d := Act(c, a);
            && d.store.isMuted == (if a.LeaveRoom? then false
                                   else if a.ToggleMute? then !c.store.isMuted else c.store.isMuted)
            && d.store.isVideoOn == (if a.LeaveRoom? then true
                                     else if a.ToggleVideo? then !c.store.isVideoOn else c.store.isVideoOn)
            && d.outbox == c.outbox + (match a
                 case ToggleMute => [StateUpdate(Changes(Some(d.store.isMuted), None, None))]
                 case ToggleVideo => [StateUpdate(Changes(None, Some(d.store.isVideoOn), None))]
                 case Send(f) => [f]
                 case LeaveRoom => [])
            && d.selfId == c.selfId && d.media == c.media && d.left == a.LeaveRoom?
            && (!a.LeaveRoom? ==> d.mesh == c.mesh)
            && (a.ToggleMute? || a.Send? ==>
                  d.store.participants == c.store.participants && d.store.self == c.store.self)
            && (a.ToggleVideo? ==>
                  && d.store.participants.Keys == c.store.participants.Keys
                  && forall r :: r in c.store.participants ==>
                       var was, now := c.store.participants[r], d.store.participants[r];
                       now == if c.selfId == Some(r)
                              then was.(flags := Flags(was.flags.muted, d.store.isVideoOn, was.flags.handRaised))
                              else was)
  {
    assert c.outbox + [] == c.outbox;
  }

  // --- Across server and client ------------------------------------------------------------------------------

  ghost predicate NoSnapshots(events: seq<Initiator.Event>) {
    forall i :: 0 <= i < |events| && events[i].Heard? ==> !events[i].frame.RoomState?
  }

  ghost predicate NoMuteToggles(events: seq<Initiator.Event>) {
    forall i :: 0 <= i < |events| ==> events[i] != Initiator.Did(ToggleMute)
  }

  /** A muted client shows it until its user toggles, gets a snapshot or leaves. */
  lemma {:induction false} MutedUntilToggled(c: Client, before: seq<Initiator.Event>, after: seq<Initiator.Event>)
    requires Initiator.Live(c, before).left || Initiator.Live(c, before).store.isMuted
    requires NoSnapshots(after) && NoMuteToggles(after)
    ensures Initiator.Live(c, before + after).left || Initiator.Live(c, before + after).store.isMuted
  {
    if after == [] {
      assert before + after == before;
    } else {
      var n := |after| - 1;
      assert (before + after)[..|before + after| - 1] == before + after[..n];
      MutedUntilToggled(c, before, after[..n]);
      var so := Initiator.Live(c, before + after[..n]);
      hide Dispatch;
      hide Act;
      if !so.left {
        match after[n] {
          case Heard(f) => FrameWrites(so, f);
          case Did(a) => ToggleWrites(so, a);
        }
      } else {
        LeftIsLeft(so, after[n]);
      }
    }
  }

  lemma LeftIsLeft(c: Client, e: Initiator.Event)
    requires c.left
    ensures e.Heard? ==> Dispatch(c, e.frame).left
    ensures e.Did? ==> Act(c, e.action).left
  {
  }

  /** An obeyed mute frame puts the notice next in the log of the socket found for the row, and mutes the row. */
  lemma MuteIsServed(steps: seq<Step>, c: ConnId, r: RowId, d: ConnId)
    requires c in Run(steps).running && Chairs(Run(steps), c) && Named(Run(steps), c, Some(r))
    requires d in Run(steps).wires && d in Target(Run(steps).Room(Run(steps).sockets[c].meetingId), r)
    ensures var s, t := Run(steps), Run(steps + [Receive(c, HostMuteFrame(Some(r)))]);
            && d in t.wires && |s.wires[d]| < |t.wires[d]|
            && t.wires[d][|s.wires[d]|] == HostMutedYou(s.sockets[c].participantId)
            && r in t.db.rows && t.db.rows[r].flags.muted
  {
    hide Invariant;
    hide Apply;
    hide Run;
    var s, step := Run(steps), Receive(c, HostMuteFrame(Some(r)));
    LogsOfEveryRun(steps, step);
    RowsOfEveryRun(steps, step);
    MuteIsTold(s, c, r, d);
    hide Told;
    hide Asked;
    hide Closes;
    hide Binds;
    assert s.wires[d] + Told(s, step, d) == Run(steps + [step]).wires[d];
  }

  lemma MuteIsTold(s: State, c: ConnId, r: RowId, d: ConnId)
    requires c in s.running && Chairs(s, c) && Named(s, c, Some(r))
    requires d in Target(s.Room(s.sockets[c].meetingId), r)
    ensures var told := Told(s, Receive(c, HostMuteFrame(Some(r))), d);
            told != [] && told[0] == HostMutedYou(s.sockets[c].participantId)
    ensures Asked(s, Receive(c, HostMuteFrame(Some(r))), r) == MUTED
  {
  }

  lemma {:induction false} LogsStay(steps: seq<Step>, more: seq<Step>, d: ConnId)
    requires d in Run(steps).wires
    ensures d in Run(steps + more).wires && Run(steps).wires[d] <= Run(steps + more).wires[d]
  {
    hide Run;
    hide Told;
    if more == [] {
      assert steps + more == steps;
    } else {
      var n := |more| - 1;
      LogsStay(steps, more[..n], d);
      assert steps + more == steps + more[..n] + [more[n]];
      LogsOfEveryRun(steps + more[..n], more[n]);
    }
  }

  lemma {:induction false} FramesOfTwo(a: seq<Initiator.Event>, b: seq<Initiator.Event>)
    ensures Initiator.Frames(a + b) == Initiator.Frames(a) + Initiator.Frames(b)
  {
    if b == [] {
      assert a + b == a;
    } else {
      var n := |b| - 1;
      assert (a + b)[..|a + b| - 1] == a + b[..n];
      FramesOfTwo(a, b[..n]);
    }
  }

  lemma {:induction false} HeardAreFrames(events: seq<Initiator.Event>, i: nat)
    requires i < |events| && events[i].Heard?
    ensures events[i].frame in Initiator.Frames(events)
  {
    if i < |events| - 1 { HeardAreFrames(events[..|events| - 1], i); }
  }

  lemma OneSnapshotEach(s: State)
    requires SocketsOk(s) && ShapesOk(s)
    ensures forall d :: d in s.wires ==> d in s.sockets && SnapshotFirst(s.wires[d], s.sockets[d].participantId)
  {
    hide SnapshotFirst;
  }

  lemma LogsHaveOneSnapshot(steps: seq<Step>)
    ensures forall d :: d in Run(steps).wires ==>
              d in Run(steps).sockets && SnapshotFirst(Run(steps).wires[d], Run(steps).sockets[d].participantId)
  {
    hide Run;
    hide SnapshotFirst;
    hide ShapesOk;
    hide Invariant;
    EveryRunIsMannered(steps);
    InvariantAtRun(steps);
    SocketsOfInvariant(Run(steps));
    OneSnapshotEach(Run(steps));
  }

  /** What a client handles after the notice brings no snapshot. */
  lemma {:induction false} AfterTheNotice(
      before: seq<Initiator.Event>, notice: ServerFrame, after: seq<Initiator.Event>, log: seq<ServerFrame>,
      you: RowId)
    requires SnapshotFirst(log, you) && Initiator.Frames(before) != []
    requires Initiator.Frames(before + [Initiator.Heard(notice)] + after) <= log
    ensures |Initiator.Frames(before)| < |log| && notice == log[|Initiator.Frames(before)|] && NoSnapshots(after)
  {
    var heard := [Initiator.Heard(notice)];
    FramesOfTwo(before + heard, after);
    FramesOfTwo(before, heard);
    assert heard[..0] == [] && Initiator.Frames([]) == [];
    assert Initiator.Frames(heard) == [notice];
    var n := |Initiator.Frames(before)|;
    var all := Initiator.Frames(before) + [notice] + Initiator.Frames(after);
    assert all[n] == notice && all[n] == log[n];
    forall i | 0 <= i < |after| && after[i].Heard? ensures !after[i].frame.RoomState? {
      HeardAreFrames(after, i);
      var k :| 0 <= k < |Initiator.Frames(after)| && Initiator.Frames(after)[k] == after[i].frame;
      assert all[n + 1 + k] == after[i].frame && all[n + 1 + k] == log[n + 1 + k];
    }
  }

  /**
   * A host's mute reaches the microphone: when the owner's mute frame names a row of its meeting, and the
   * client behind the socket found for that row has read its log past that point, what it read there is the
   * notice, and it shows itself muted until its user toggles the microphone or leaves, however the server
   * and the client run on.
   */
  lemma {:induction false} HostMuteReachesTheMicrophone(
      steps: seq<Step>, c: ConnId, r: RowId, d: ConnId, more: seq<Step>, client: Client,
      before: seq<Initiator.Event>, notice: ServerFrame, after: seq<Initiator.Event>)
    requires c in Run(steps).running && Chairs(Run(steps), c) && Named(Run(steps), c, Some(r))
    requires d in Run(steps).wires && d in Target(Run(steps).Room(Run(steps).sockets[c].meetingId), r)
    requires var t := Run(steps + [Receive(c, HostMuteFrame(Some(r)))] + more);
             d in t.wires && Initiator.Frames(before + [Initiator.Heard(notice)] + after) <= t.wires[d]
    requires |Initiator.Frames(before)| == |Run(steps).wires[d]| && NoMuteToggles(after)
    ensures notice == HostMutedYou(Run(steps).sockets[c].participantId)
    ensures var end := Initiator.Live(client, before + [Initiator.Heard(notice)] + after);
            end.left || end.store.isMuted
  {
    hide Run;
    hide Told;
    hide SnapshotFirst;
    hide Dispatch;
    hide NoMuteToggles;
    var muted := steps + [Receive(c, HostMuteFrame(Some(r)))];
    MuteIsServed(steps, c, r, d);
    LogsStay(muted, more, d);
    LogsHaveOneSnapshot(steps);
    LogsHaveOneSnapshot(muted + more);
    SnapshotIsThere(Run(steps).wires[d], Run(steps).sockets[d].participantId);
    AfterTheNotice(before, notice, after, Run(muted + more).wires[d], Run(muted + more).sockets[d].participantId);
    assert (before + [Initiator.Heard(notice)])[..|before|] == before;
    var so := Initiator.Live(client, before);
    if !so.left {
      HostMuteMutesOnly(so, Run(steps).sockets[c].participantId);
    } else {
      LeftIsLeft(so, Initiator.Heard(notice));
    }
    MutedUntilToggled(client, before + [Initiator.Heard(notice)], after);
  }

  lemma SnapshotIsThere(log: seq<ServerFrame>, you: RowId)
    requires SnapshotFirst(log, you)
    ensures log != []
  {
  }

  /** What the user's toggle reports makes the row show what the client shows, in that button and no other. */
  lemma ToggleReachesTheRow(steps: seq<Step>, d: ConnId, client: Client, a: Action)
    requires d in Run(steps).running && !client.left && (a.ToggleMute? || a.ToggleVideo?)
    ensures d in Run(steps).sockets && Act(client, a).outbox != []
    ensures var shown := Act(client, a);
            var t := Run(steps + [Receive(d, shown.outbox[|shown.outbox| - 1])]);
            var r := Run(steps).sockets[d].participantId;
            && r in Run(steps).db.rows && r in t.db.rows
            && var was, now := Run(steps).db.rows[r].flags, t.db.rows[r].flags;
            && now.muted == (if a.ToggleMute? then shown.store.isMuted else was.muted)
            && now.videoOn == (if a.ToggleVideo? then shown.store.isVideoOn else was.videoOn)
            && now.handRaised == was.handRaised
  {
    hide Run;
    hide Act;
    hide RowsWritten;
    hide Invariant;
    ToggleWrites(client, a);
    InvariantAtRun(steps);
    SocketsOfInvariant(Run(steps));
    var shown := Act(client, a);
    var report := shown.outbox[|shown.outbox| - 1];
    RowsOfEveryRun(steps, Receive(d, report));
    ReportWrites(Run(steps), d, report.changes, Run(steps + [Receive(d, report)]));
  }

  lemma ReportWrites(s: State, d: ConnId, changes: Changes, t: State)
    requires SocketsOk(s) && d in s.running && RowsWritten(s, Receive(d, StateUpdate(changes)), t)
    ensures d in s.sockets && s.sockets[d].participantId in s.db.rows && s.sockets[d].participantId in t.db.rows
    ensures var r := s.sockets[d].participantId; var was, now := s.db.rows[r].flags, t.db.rows[r].flags;
            && now.muted == (if changes.muted.Some? then changes.muted.value else was.muted)
            && now.videoOn == (if changes.videoOn.Some? then changes.videoOn.value else was.videoOn)
            && now.handRaised == (if changes.handRaised.Some? then changes.handRaised.value else was.handRaised)
  {
    hide Closes;
    hide Binds;
    assert RowWritten(s, Receive(d, StateUpdate(changes)), t, s.sockets[d].participantId);
  }
}
