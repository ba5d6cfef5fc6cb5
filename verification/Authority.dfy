// Who is obeyed: what the frames of a guest cannot do, and what those of the owner do and no more.

module Authority {
  import opened Model
  import opened Lifecycle
  import LifecycleProofs
  import opened Protocol
  import opened Registry
  import opened Server
  import opened ServerProofs
  import opened Guarantees
  import opened Columns
  import opened Logs

  predicate HostFrame(frame: ClientFrame) {
    frame.HostMuteFrame? || frame.HostMuteAllFrame? || frame.HostRemoveFrame? || frame.HostEndFrame?
  }

  /** A host frame about one participant that does not say which. */
  predicate NamesNobody(frame: ClientFrame) {
    (frame.HostMuteFrame? || frame.HostRemoveFrame?) && frame.target.None?
  }

  /** Tables and registry are as they were, but for the flags of the sender's own row. */
  ghost predicate OnlyOwnFlags(s: State, t: State, r: RowId) {
    && t.db.meetings == s.db.meetings && t.rooms == s.rooms && t.sockets == s.sockets && t.running == s.running
    && t.db.rows.Keys == s.db.rows.Keys
    && (forall x :: x in s.db.rows && x != r ==> t.db.rows[x] == s.db.rows[x])
    && (r in s.db.rows ==> t.db.rows[r] == s.db.rows[r].(flags := t.db.rows[r].flags))
  }

  lemma HarmlessFrames(s: State, c: ConnId, frame: ClientFrame)
    requires SocketsOk(s) && c in s.sockets && !HostFrame(frame)
    requires forall r :: r in s.db.rows ==> s.db.rows[r].id == r
    ensures var t := Handle(s, s.sockets[c], frame);
            && OnlyOwnFlags(s, t, s.sockets[c].participantId)
            && (!frame.StateUpdate? ==> t.db == s.db)
  {
    hide Delivered;
  }

  lemma GuestFramesAreHarmless(s: State, c: ConnId, frame: ClientFrame)
    requires TablesTied(s) && SocketsOk(s) && c in s.sockets && !Chairs(s, c)
    ensures var t := Handle(s, s.sockets[c], frame);
            && OnlyOwnFlags(s, t, s.sockets[c].participantId)
            && (!frame.StateUpdate? ==> t.db == s.db)
  {
    hide Handle;
    hide ToSocket;
    hide OnlyOwnFlags;
    IdsAreKeys(s);
    hide TablesTied;
    if HostFrame(frame) {
      RefusedFrameDoesNothing(s, c, frame);
      ChairsIs(s, c);
      hide Chairs;
      hide OwnedBy;
      SendingWritesNothing(s, c, Error(Refused(s, s.sockets[c], frame).value));
    } else {
      HarmlessFrames(s, c, frame);
    }
  }

  lemma SendingWritesNothing(s: State, c: ConnId, f: ServerFrame)
    ensures forall r :: OnlyOwnFlags(s, ToSocket(s, c, f), r)
    ensures ToSocket(s, c, f).db == s.db
  {
  }

  /**
   * A socket whose row's user does not own its meeting: whatever it sends, every meeting, room and socket,
   * and every row but its own, stays as it was, and its own row changes in its flags alone, by a state update.
   * A host frame does nothing but have the sender told why it is refused.
   */
  lemma GuestsChangeNothing(steps: seq<Step>, c: ConnId, frame: ClientFrame)
    requires c in Run(steps).running
    ensures c in Run(steps).sockets
    ensures var s, t := Run(steps), Run(steps + [Receive(c, frame)]);
            var p, m := s.sockets[c].participantId, s.sockets[c].meetingId;
            && p in s.db.rows && m in s.db.meetings
            && (s.db.rows[p].userId != s.db.meetings[m].hostId ==>
                  && OnlyOwnFlags(s, t, p) && (!frame.StateUpdate? ==> t.db == s.db)
                  && (HostFrame(frame) ==>
                        t == s.(wires := Delivered(s.wires, {c},
                                                   Error(if NamesNobody(frame) then BadFrame else NotHost)))))
  {
    hide Apply;
    hide Handle;
    hide OnlyOwnFlags;
    hide Invariant;
    hide Run;
    var s := Run(steps);
    InvariantAtRun(steps);
    InvariantTies(s);
    InvariantFacts(s);
    RowsHaveMeetings(s);
    hide TablesTied;
    hide RoomsOk;
    hide LifecycleProofs.Invariant;
    RunStep(steps, Receive(c, frame));
    ReceiveApplied(s, c, frame);
    ChairsIs(s, c);
    if !Chairs(s, c) {
      GuestFramesAreHarmless(s, c, frame);
      RefusedFrameDoesNothing(s, c, frame);
      hide Delivered;
    }
  }

  /**
   * The owner's socket: a mute frame mutes exactly the row it names in its meeting, a removal closes exactly
   * the other row it names there and keeps a first closing stamp; nothing else in the tables changes.
   */
  lemma OwnersChangeOneRow(steps: seq<Step>, c: ConnId, r: RowId)
    requires c in Run(steps).running && Chairs(Run(steps), c)
    ensures var s := Run(steps);
            var muted := Run(steps + [Receive(c, HostMuteFrame(Some(r)))]).db;
            var removed := Run(steps + [Receive(c, HostRemoveFrame(Some(r)))]).db;
            if r in s.db.rows && s.db.rows[r].meetingId == s.sockets[c].meetingId then
              var row := s.db.rows[r];
              && muted == Db(s.db.meetings,
                             s.db.rows[r := row.(flags := Flags(true, row.flags.videoOn, row.flags.handRaised))])
              && removed == if r == s.sockets[c].participantId then s.db
                            else Db(s.db.meetings, s.db.rows[r := row.(
                                      leftAt := if row.leftAt.None? then Some(s.clock) else row.leftAt,
                                      connectionId := None)])
            else muted == s.db && removed == s.db
  {
    hide Apply;
    hide Handle;
    hide HandleHostMute;
    hide HandleHostRemove;
    hide Invariant;
    hide Run;
    var s := Run(steps);
    InvariantAtRun(steps);
    InvariantTies(s);
    InvariantFacts(s);
    hide TablesTied;
    hide RoomsOk;
    hide LifecycleProofs.Invariant;
    hide Chairs;
    var mute, remove := HostMuteFrame(Some(r)), HostRemoveFrame(Some(r));
    RunStep(steps, Receive(c, mute));
    RunStep(steps, Receive(c, remove));
    ReceiveApplied(s, c, mute);
    ReceiveApplied(s, c, remove);
    HandleApplied(s, s.sockets[c], mute);
    HandleApplied(s, s.sockets[c], remove);
    HostMuteRows(s, c, Some(r));
    HostRemoveRows(s, c, Some(r));
    FramesKeepMeetings(s, s.sockets[c], mute);
    FramesKeepMeetings(s, s.sockets[c], remove);
  }
}
