// The tables read by column: for each field of a meeting or of a row, which steps write it and what.
// The guards speak of the fields alone, as a run finds them before the step.

module Columns {
  import opened Model
  import opened Lifecycle
  import LifecycleProofs
  import opened Protocol
  import opened Registry
  import opened Server
  import opened ServerProofs
  import opened Guarantees
  import Isolation

  // --- Who may do what ----------------------------------------------------------------------------------

  predicate OwnedBy(s: State, m: MeetingId, user: UserId) {
    m in s.db.meetings && s.db.meetings[m].hostId == user
  }

  /** A frame comes from socket `c`, whose handler is running. */
  predicate From(s: State, step: Step, c: ConnId) {
    step.Receive? && step.c == c && c in s.running && c in s.sockets
  }

  /** The socket of a row whose user owns the row's meeting. */
  predicate Chairs(s: State, c: ConnId) {
    && c in s.sockets && s.sockets[c].participantId in s.db.rows
    && OwnedBy(s, s.sockets[c].meetingId, s.db.rows[s.sockets[c].participantId].userId)
  }

  /** A frame that only the owner's socket is obeyed for. */
  predicate ChairSends(s: State, step: Step) {
    step.Receive? && From(s, step, step.c) && Chairs(s, step.c)
  }

  // --- Meetings -------------------------------------------------------------------------------------------

  predicate Creates(s: State, step: Step) {
    step.CreateMeeting? && (step.start.None? || step.start.value > s.clock)
  }

  /** By the owner's call on a meeting that is not on, or by the owner's own early arrival. */
  predicate Starts(s: State, step: Step, m: MeetingId) {
    && m in s.db.meetings
    && match step
       case StartMeeting(k, user) =>
         k == m && s.db.meetings[m].hostId == user && s.db.meetings[m].status in {Scheduled, Ended}
       case JoinMeeting(k, user, _, _) =>
         && k == m && s.db.meetings[m].hostId == user && s.db.meetings[m].status == Scheduled
         && |OpenRows(s.db.rows, m)| < 6
       case _ => false
  }

  /** By the owner's call on a live meeting, or by a frame of the owner's socket at any time. */
  predicate Ends(s: State, step: Step, m: MeetingId) {
    && m in s.db.meetings
    && if step.EndMeeting? then
         step.m == m && s.db.meetings[m].hostId == step.user && s.db.meetings[m].status == Live
       else ChairSends(s, step) && step.frame.HostEndFrame? && s.sockets[step.c].meetingId == m
  }

  predicate Cancels(s: State, step: Step, m: MeetingId) {
    step.CancelMeeting? && step.m == m && OwnedBy(s, m, step.user) && s.db.meetings[m].status == Scheduled
  }

  /** The owner of a scheduled meeting gives it another start, later than the present. */
  predicate Edits(s: State, step: Step, m: MeetingId) {
    && step.UpdateMeeting? && step.m == m && OwnedBy(s, m, step.user) && s.db.meetings[m].status == Scheduled
    && step.start.Some? && step.start.value > s.clock
  }

  /** What the step leaves in each field of meeting `m`. */
  ghost predicate MeetingWritten(s: State, step: Step, t: State, m: MeetingId)
    requires m in s.db.meetings
  {
    && m in t.db.meetings
    && var before, after := s.db.meetings[m], t.db.meetings[m];
    && after.status == (if Starts(s, step, m) then Live else if Ends(s, step, m) then Ended
                        else if Cancels(s, step, m) then Cancelled else before.status)
    && after.startedAt == (if Starts(s, step, m) then Some(s.clock) else before.startedAt)
    && after.endedAt == (if Ends(s, step, m) then Some(s.clock)
                         else if Starts(s, step, m) then None else before.endedAt)
    && after.scheduledStart == (if Edits(s, step, m) then step.start else before.scheduledStart)
    && after.id == before.id && after.hostId == before.hostId && after.createdAt == before.createdAt
  }

  ghost predicate MeetingCreated(s: State, step: Step, t: State) {
    && t.db.meetings.Keys == s.db.meetings.Keys + (if Creates(s, step) then {s.next} else {})
    && (Creates(s, step) ==>
          var created := t.db.meetings[s.next];
          && created.id == s.next && created.hostId == step.host && created.createdAt == s.clock
          && created.scheduledStart == step.start && created.endedAt.None?
          && created.status == (if step.start.None? then Live else Scheduled)
          && created.startedAt == (if step.start.None? then Some(s.clock) else None))
  }

  ghost predicate MeetingsWritten(s: State, step: Step, t: State) {
    MeetingCreated(s, step, t) && forall m :: m in s.db.meetings ==> MeetingWritten(s, step, t, m)
  }

  predicate IsRest(step: Step) {
    !step.Receive? && !step.Connect? && !step.Teardown?
  }

  ghost predicate TablesTied(s: State) {
    && (forall m :: m in s.db.meetings ==>
          s.db.meetings[m].id == m && m < s.next && LifecycleProofs.StampsOk(s.db.meetings[m], s.clock))
    && (forall r :: r in s.db.rows ==>
          && s.db.rows[r].id == r && r < s.next && s.db.rows[r].meetingId in s.db.meetings
          && (s.db.rows[r].role == Host <==> s.db.rows[r].userId == s.db.meetings[s.db.rows[r].meetingId].hostId)
          && (s.db.rows[r].connectionId.Some? ==> s.db.rows[r].leftAt.None?))
  }

  lemma InvariantTies(s: State)
    requires Invariant(s)
    ensures TablesTied(s)
  {
    hide RoomsOk;
    hide SocketsOk;
  }

  lemma CreateWritesMeetings(s: State, step: Step)
    requires TablesTied(s) && step.CreateMeeting?
    ensures MeetingsWritten(s, step, Apply(s, step))
  {
  }

  lemma EditWritesMeetings(s: State, step: Step)
    requires TablesTied(s) && (step.UpdateMeeting? || step.CancelMeeting?)
    ensures MeetingsWritten(s, step, Apply(s, step))
  {
  }

  lemma StartWritesMeetings(s: State, step: Step)
    requires TablesTied(s) && step.StartMeeting?
    ensures MeetingsWritten(s, step, Apply(s, step))
  {
  }

  lemma EndWritesMeetings(s: State, step: Step)
    requires TablesTied(s) && step.EndMeeting?
    ensures MeetingsWritten(s, step, Apply(s, step))
  {
    hide Evicted;
  }

  lemma JoinWritesMeetings(s: State, step: Step)
    requires TablesTied(s) && step.JoinMeeting?
    ensures MeetingsWritten(s, step, Apply(s, step))
  {
    hide OpenRows;
    hide LifecycleProofs.Before;
  }

  lemma RowCallsKeepMeetings(s: State, step: Step)
    requires step.Tick? || step.LeaveMeeting? || step.RemoveParticipant? || step.PatchParticipant?
    ensures Apply(s, step).db.meetings == s.db.meetings
  {
  }

  lemma RestWritesMeetings(s: State, step: Step)
    requires TablesTied(s) && IsRest(step)
    ensures MeetingsWritten(s, step, Apply(s, step))
  {
    hide Apply;
    hide TablesTied;
    match step {
      case CreateMeeting(_, _) => CreateWritesMeetings(s, step);
      case UpdateMeeting(_, _, _) => EditWritesMeetings(s, step);
      case CancelMeeting(_, _) => EditWritesMeetings(s, step);
      case StartMeeting(_, _) => StartWritesMeetings(s, step);
      case EndMeeting(_, _) => EndWritesMeetings(s, step);
      case JoinMeeting(_, _, _, _) => JoinWritesMeetings(s, step);
      case _ => RowCallsKeepMeetings(s, step);
    }
  }

  lemma ReceiveApplied(s: State, c: ConnId, frame: ClientFrame)
    ensures Apply(s, Receive(c, frame)) ==
        if c in s.running && c in s.sockets then Handle(s, s.sockets[c], frame) else s
  {
  }

  lemma FramesKeepMeetings(s: State, c: Connection, frame: ClientFrame)
    requires !frame.HostEndFrame?
    ensures Handle(s, c, frame).db.meetings == s.db.meetings
  {
    hide Delivered;
    hide ClosedParticipant;
    hide Ascending;
    hide Lifecycle.Muted;
  }

  lemma HandleApplied(s: State, c: Connection, frame: ClientFrame)
    ensures frame.StateUpdate? ==> Handle(s, c, frame) == HandleStateUpdate(s, c, frame.changes)
    ensures frame.HostMuteFrame? ==> Handle(s, c, frame) == HandleHostMute(s, c, frame.target)
    ensures frame.HostMuteAllFrame? ==> Handle(s, c, frame) == HandleHostMuteAll(s, c)
    ensures frame.HostRemoveFrame? ==> Handle(s, c, frame) == HandleHostRemove(s, c, frame.target)
    ensures frame.HostEndFrame? ==> Handle(s, c, frame) == HandleHostEnd(s, c)
  {
  }

  /** A host frame is obeyed exactly when the owner's socket sends it. */
  lemma RequireHostIff(s: State, c: ConnId)
    requires TablesTied(s) && SocketsOk(s) && c in s.sockets
    ensures s.sockets[c].participantId in s.db.rows
    ensures RequireHost(s.db, s.db.rows[s.sockets[c].participantId])
         == if Chairs(s, c) then Ok(s.db.meetings[s.sockets[c].meetingId]) else Err(NotHost)
  {
  }

  /** Role and ownership are both asked for, in any tables, though in those of a run either implies the other. */
  lemma RequireHostAsksBoth(db: Db, actor: Participant)
    ensures RequireHost(db, actor).Ok? <==>
              && actor.role == Host && actor.meetingId in db.meetings
              && db.meetings[actor.meetingId].hostId == actor.userId
  {
  }

  lemma HostEndWritesMeetings(s: State, c: ConnId)
    requires TablesTied(s) && SocketsOk(s) && c in s.sockets
    ensures var t := HandleHostEnd(s, s.sockets[c]).db.meetings; var m := s.sockets[c].meetingId;
            if Chairs(s, c) then
              && m in s.db.meetings
              && t == s.db.meetings[m := s.db.meetings[m].(status := Ended, endedAt := Some(s.clock))]
            else t == s.db.meetings
  {
    hide Delivered;
    hide RemovedAllBut;
    hide Evicted;
    hide TablesTied;
    hide RequireHost;
    RequireHostIff(s, c);
    assert Chairs(s, c) ==> s.db.meetings[s.sockets[c].meetingId].id == s.sockets[c].meetingId by { IdsAreKeys(s); }
  }

  lemma IdsAreKeys(s: State)
    requires TablesTied(s)
    ensures forall m :: m in s.db.meetings ==> s.db.meetings[m].id == m
    ensures forall r :: r in s.db.rows ==> s.db.rows[r].id == r
  {
  }

  lemma ReceiveWritesMeetings(s: State, step: Step)
    requires TablesTied(s) && SocketsOk(s) && step.Receive?
    ensures MeetingsWritten(s, step, Apply(s, step))
  {
    hide Apply;
    hide Handle;
    hide HandleHostEnd;
    hide SocketsOk;
    hide TablesTied;
    ReceiveApplied(s, step.c, step.frame);
    if step.c in s.running && step.c in s.sockets {
      if step.frame.HostEndFrame? {
        HandleApplied(s, s.sockets[step.c], step.frame);
        HostEndWritesMeetings(s, step.c);
      } else {
        FramesKeepMeetings(s, s.sockets[step.c], step.frame);
      }
    }
  }

  lemma SocketsKeepMeetings(s: State, step: Step)
    requires step.Connect? || step.Teardown?
    ensures Apply(s, step).db.meetings == s.db.meetings
  {
    hide Delivered;
    hide ActiveRoster;
  }

  /** Which fields of which meetings a step writes, and with what. */
  lemma StepWritesMeetings(s: State, step: Step)
    requires Invariant(s)
    ensures MeetingsWritten(s, step, Apply(s, step))
  {
    hide Invariant;
    hide Apply;
    hide TablesTied;
    hide SocketsOk;
    hide RoomsOk;
    hide LifecycleProofs.Invariant;
    InvariantTies(s);
    InvariantFacts(s);
    if step.Receive? {
      ReceiveWritesMeetings(s, step);
    } else if IsRest(step) {
      RestWritesMeetings(s, step);
    } else {
      SocketsKeepMeetings(s, step);
    }
  }

  /** Only a meeting that has started can be ended, by frame too: an owner's row is not opened before. */
  lemma EndsWhatHasStarted(s: State, step: Step, m: MeetingId)
    requires Invariant(s) && Ends(s, step, m)
    ensures s.db.meetings[m].status in {Live, Ended}
  {
    if step.Receive? {
      var p := s.sockets[step.c].participantId;
      assert LifecycleProofs.RowOk(s.db, s.db.rows[p], s.clock);
    }
  }

  lemma InvariantAtRun(steps: seq<Step>)
    ensures Invariant(Run(steps))
  {
    hide Invariant;
    Reachable(steps);
  }

  lemma MeetingsOfEveryRun(steps: seq<Step>, step: Step)
    ensures MeetingsWritten(Run(steps), step, Run(steps + [step]))
  {
    hide Invariant;
    hide MeetingsWritten;
    Reachable(steps);
    RunStep(steps, step);
    StepWritesMeetings(Run(steps), step);
  }

  // --- Rows -------------------------------------------------------------------------------------------------

  /** The meeting takes newcomers, the user may come in, and there is a place. */
  predicate Joins(s: State, step: Step) {
    && step.JoinMeeting? && step.m in s.db.meetings && s.db.meetings[step.m].status in {Scheduled, Live}
    && (s.db.meetings[step.m].hostId == step.user || step.passcodeOk) && |OpenRows(s.db.rows, step.m)| < 6
  }

  predicate Closes(s: State, step: Step, r: RowId)
    requires r in s.db.rows
  {
    var row := s.db.rows[r];
    match step
    case LeaveMeeting(x) => x == r
    case RemoveParticipant(x, actor) => x == r && OwnedBy(s, row.meetingId, actor) && row.userId != actor
    case EndMeeting(_, _) => Ends(s, step, row.meetingId)
    case Teardown(c) => c in s.running && row.connectionId == Some(c)
    case Receive(c, frame) =>
      && ChairSends(s, step) && s.sockets[c].meetingId == row.meetingId
      && (frame.HostEndFrame? || (frame == HostRemoveFrame(Some(r)) && s.sockets[c].participantId != r))
    case _ => false
  }

  /** A connect for this open row, under its meeting's number, while that is neither over nor cancelled. */
  predicate Binds(s: State, step: Step, r: RowId)
    requires r in s.db.rows
  {
    var row := s.db.rows[r];
    && step.Connect? && step.session == r && step.number == row.meetingId && row.leftAt.None?
    && row.meetingId in s.db.meetings && s.db.meetings[row.meetingId].status in {Scheduled, Live}
  }

  const NOTHING: Changes := Changes(None, None, None)
  const MUTED: Changes := Changes(Some(true), None, None)

  /** What the step asks of the flags of row `r`, with the right to. */
  function Asked(s: State, step: Step, r: RowId): Changes
    requires r in s.db.rows
  {
    var row := s.db.rows[r];
    match step
    case PatchParticipant(x, actor, c) =>
      if x == r && (row.userId == actor || OwnedBy(s, row.meetingId, actor)) then c else NOTHING
    case Receive(c, frame) =>
      if !From(s, step, c) then NOTHING
      else
        (match frame
         case StateUpdate(changes) => if s.sockets[c].participantId == r then changes else NOTHING
         case HostMuteFrame(target) =>
           if Chairs(s, c) && target == Some(r) && s.sockets[c].meetingId == row.meetingId then MUTED else NOTHING
         case HostMuteAllFrame =>
           if Chairs(s, c) && s.sockets[c].participantId != r && s.sockets[c].meetingId == row.meetingId
              && row.leftAt.None?
           then MUTED else NOTHING
         case _ => NOTHING)
    case _ => NOTHING
  }

  /** What the step leaves in each field of row `r`. */
  ghost predicate RowWritten(s: State, step: Step, t: State, r: RowId)
    requires r in s.db.rows
  {
    && r in t.db.rows
    && var before, after, asked := s.db.rows[r], t.db.rows[r], Asked(s, step, r);
    && after.leftAt == (if Closes(s, step, r) && before.leftAt.None? then Some(s.clock) else before.leftAt)
    && after.connectionId == (if Binds(s, step, r) then Some(s.next)
                              else if Closes(s, step, r) then None else before.connectionId)
    && after.flags.muted == (if asked.muted.Some? then asked.muted.value else before.flags.muted)
    && after.flags.videoOn == (if asked.videoOn.Some? then asked.videoOn.value else before.flags.videoOn)
    && after.flags.handRaised == (if asked.handRaised.Some? then asked.handRaised.value else before.flags.handRaised)
    && after.id == before.id && after.meetingId == before.meetingId && after.userId == before.userId
    && after.role == before.role && after.joinedAt == before.joinedAt
  }

  ghost predicate RowOpened(s: State, step: Step, t: State) {
    && t.db.rows.Keys == s.db.rows.Keys + (if Joins(s, step) then {s.next} else {})
    && (Joins(s, step) ==>
          var row := t.db.rows[s.next];
          && row.id == s.next && row.meetingId == step.m && row.userId == step.user
          && (row.role == Host <==> s.db.meetings[step.m].hostId == step.user)
          && row.flags == step.flags && row.joinedAt == s.clock
          && row.leftAt.None? && row.connectionId.None?)
  }

  ghost predicate RowsWritten(s: State, step: Step, t: State) {
    RowOpened(s, step, t) && forall r :: r in s.db.rows ==> RowWritten(s, step, t, r)
  }

  /** The step does nothing to old rows but close some. */
  ghost predicate OnlyCloses(s: State, step: Step, rows: Rows) {
    && rows.Keys == s.db.rows.Keys
    && forall r :: r in s.db.rows ==>
         rows[r] == if Closes(s, step, r) then Closed(s.db.rows[r], s.clock) else s.db.rows[r]
  }

  /** The step does nothing to old rows but change some flags. */
  ghost predicate OnlyPatches(s: State, step: Step, rows: Rows) {
    && rows.Keys == s.db.rows.Keys
    && forall r :: r in s.db.rows ==>
         rows[r] == s.db.rows[r].(flags := Patched(s.db.rows[r].flags, Asked(s, step, r)))
  }

  lemma ClosingWritesRows(s: State, step: Step, t: State)
    requires OnlyCloses(s, step, t.db.rows) && !step.Connect? && !step.JoinMeeting? && !step.PatchParticipant?
    requires step.Receive? ==> step.frame.HostRemoveFrame? || step.frame.HostEndFrame?
    ensures RowsWritten(s, step, t)
  {
    hide Closes;
  }

  lemma PatchingWritesRows(s: State, step: Step, t: State)
    requires OnlyPatches(s, step, t.db.rows) && (step.PatchParticipant? || step.Receive?)
    requires step.Receive? ==> !step.frame.HostRemoveFrame? && !step.frame.HostEndFrame?
    ensures RowsWritten(s, step, t)
  {
    hide Asked;
  }

  lemma OneRowPatched(s: State, step: Step, rows: Rows, x: RowId, c: Changes)
    requires x in s.db.rows && rows == s.db.rows[x := s.db.rows[x].(flags := Patched(s.db.rows[x].flags, c))]
    requires forall r :: r in s.db.rows ==> Asked(s, step, r) == if r == x then c else NOTHING
    ensures OnlyPatches(s, step, rows)
  {
    hide Asked;
  }

  lemma NoRowPatched(s: State, step: Step)
    requires forall r :: r in s.db.rows ==> Asked(s, step, r) == NOTHING
    ensures OnlyPatches(s, step, s.db.rows)
  {
    hide Asked;
  }

  lemma RowCallsWriteRows(s: State, step: Step)
    requires TablesTied(s) && (step.LeaveMeeting? || step.RemoveParticipant?)
    ensures OnlyCloses(s, step, Apply(s, step).db.rows)
  {
    ClosingKeepsIds(s.db.rows, s.clock);
    IdsAreKeys(s);
    RowsHaveMeetings(s);
    hide TablesTied;
    hide Closed;
  }

  lemma ClosingKeepsIds(rows: Rows, now: int)
    ensures forall r :: r in rows ==> Closed(rows[r], now).id == rows[r].id
  {
  }

  lemma RowsHaveMeetings(s: State)
    requires TablesTied(s)
    ensures forall r :: r in s.db.rows ==> s.db.rows[r].meetingId in s.db.meetings
  {
  }

  lemma PatchWritesRows(s: State, step: Step)
    requires TablesTied(s) && step.PatchParticipant?
    ensures OnlyPatches(s, step, Apply(s, step).db.rows)
  {
    IdsAreKeys(s);
    RowsHaveMeetings(s);
    hide TablesTied;
  }

  lemma JoinWritesRows(s: State, step: Step)
    requires TablesTied(s) && step.JoinMeeting?
    ensures RowsWritten(s, step, Apply(s, step))
  {
    hide OpenRows;
  }

  lemma EvictedIs(rows: Rows, m: MeetingId, now: int)
    requires forall r :: r in rows && rows[r].connectionId.Some? ==> rows[r].leftAt.None?
    ensures var b := Evicted(rows, OpenRows(rows, m), now);
            && b.Keys == rows.Keys
            && forall r :: r in rows ==> b[r] == if rows[r].meetingId == m then Closed(rows[r], now) else rows[r]
  {
  }

  lemma EndWritesRows(s: State, step: Step)
    requires TablesTied(s) && step.EndMeeting?
    ensures OnlyCloses(s, step, Apply(s, step).db.rows)
  {
    EvictedIs(s.db.rows, step.m, s.clock);
    hide OpenRows;
    hide Evicted;
    hide Closed;
  }

  lemma MeetingCallsKeepRows(s: State, step: Step)
    requires step.Tick? || step.CreateMeeting? || step.UpdateMeeting? || step.CancelMeeting? || step.StartMeeting?
    ensures Apply(s, step).db.rows == s.db.rows
  {
  }

  lemma RestWritesRows(s: State, step: Step)
    requires TablesTied(s) && IsRest(step)
    ensures RowsWritten(s, step, Apply(s, step))
  {
    hide Apply;
    hide TablesTied;
    hide OnlyCloses;
    hide OnlyPatches;
    var t := Apply(s, step);
    match step {
      case LeaveMeeting(_) =>
        RowCallsWriteRows(s, step);
        ClosingWritesRows(s, step, t);
      case RemoveParticipant(_, _) =>
        RowCallsWriteRows(s, step);
        ClosingWritesRows(s, step, t);
      case PatchParticipant(_, _, _) =>
        PatchWritesRows(s, step);
        PatchingWritesRows(s, step, t);
      case JoinMeeting(_, _, _, _) => JoinWritesRows(s, step);
      case EndMeeting(_, _) =>
        EndWritesRows(s, step);
        ClosingWritesRows(s, step, t);
      case _ => MeetingCallsKeepRows(s, step);
    }
  }

  lemma ConnectWritesRows(s: State, step: Step)
    requires Invariant(s) && TablesTied(s) && step.Connect?
    ensures RowsWritten(s, step, Apply(s, step))
  {
    Isolation.ConnectApplied(s, step);
    ConnectRows(s, step);
    hide Apply;
    hide ConnectSocket;
    hide Invariant;
    hide TablesTied;
    hide RowsWritten;
    OnlyTheSessionIsBound(s, step);
    hide Binds;
    BindingWritesRows(s, step, Apply(s, step));
  }

  lemma OnlyTheSessionIsBound(s: State, step: Step)
    ensures forall r :: r in s.db.rows && Binds(s, step, r) ==> step.Connect? && r == step.session
  {
  }

  lemma BindingWritesRows(s: State, step: Step, t: State)
    requires step.Connect? && t.db.rows.Keys == s.db.rows.Keys
    requires forall r :: r in s.db.rows ==>
               t.db.rows[r] == if Binds(s, step, r) then s.db.rows[r].(connectionId := Some(s.next)) else s.db.rows[r]
    ensures RowsWritten(s, step, t)
  {
    hide Binds;
  }

  /** What a connect does to the rows. */
  lemma ConnectRows(s: State, step: Step)
    requires Invariant(s) && TablesTied(s) && step.Connect?
    ensures ConnectSocket(s, step.number, step.session).db.rows
         == if step.session in s.db.rows && Binds(s, step, step.session)
            then s.db.rows[step.session := s.db.rows[step.session].(connectionId := Some(s.next))] else s.db.rows
  {
    hide SocketsOk;
    hide RoomsOk;
    hide BoundOk;
    hide ActiveRoster;
    hide Delivered;
    LifecycleProofs.ConnectNeverFindsRoomFull(s.db, step.number, step.session, s.clock);
    hide LifecycleProofs.Invariant;
  }

  lemma TeardownRows(s: State, c: ConnId)
    requires SocketsOk(s) && TablesTied(s) && c in s.running
    ensures c in s.sockets
    ensures var p := s.sockets[c].participantId;
            && p in s.db.rows
            && TeardownSocket(s, s.sockets[c]).db.rows
               == if s.db.rows[p].connectionId == Some(c) then s.db.rows[p := Closed(s.db.rows[p], s.clock)]
                  else s.db.rows
  {
    ClosingKeepsIds(s.db.rows, s.clock);
    IdsAreKeys(s);
    hide TablesTied;
    hide Delivered;
    hide Removed;
    hide Closed;
  }

  lemma TeardownApplied(s: State, c: ConnId)
    ensures Apply(s, Teardown(c)) == if c in s.running && c in s.sockets then TeardownSocket(s, s.sockets[c]) else s
  {
  }

  lemma TeardownWritesRows(s: State, step: Step)
    requires Invariant(s) && TablesTied(s) && step.Teardown?
    ensures OnlyCloses(s, step, Apply(s, step).db.rows)
  {
    hide TablesTied;
    hide Apply;
    hide TeardownSocket;
    hide RoomsOk;
    hide Closed;
    hide LifecycleProofs.Invariant;
    TeardownApplied(s, step.c);
    if step.c in s.running { TeardownRows(s, step.c); }
  }

  lemma StateUpdateWritesRows(s: State, step: Step)
    requires TablesTied(s) && SocketsOk(s) && step.Receive? && step.frame.StateUpdate? && From(s, step, step.c)
    ensures OnlyPatches(s, step, HandleStateUpdate(s, s.sockets[step.c], step.frame.changes).db.rows)
  {
    IdsAreKeys(s);
    hide TablesTied;
    hide Delivered;
    hide OnlyPatches;
    OneRowPatched(s, step, HandleStateUpdate(s, s.sockets[step.c], step.frame.changes).db.rows,
                  s.sockets[step.c].participantId, step.frame.changes);
  }

  /** The row a host frame names is one of the sender's meeting. */
  predicate Named(s: State, c: ConnId, target: Option<RowId>)
    requires c in s.sockets
  {
    target.Some? && target.value in s.db.rows && s.db.rows[target.value].meetingId == s.sockets[c].meetingId
  }

  lemma HostMuteRows(s: State, c: ConnId, target: Option<RowId>)
    requires TablesTied(s) && SocketsOk(s) && c in s.sockets
    ensures HandleHostMute(s, s.sockets[c], target).db.rows
         == if Chairs(s, c) && Named(s, c, target)
            then s.db.rows[target.value :=
                             s.db.rows[target.value].(flags := s.db.rows[target.value].flags.(muted := true))]
            else s.db.rows
  {
    RequireHostIff(s, c);
    IdsAreKeys(s);
    hide TablesTied;
    hide Delivered;
    hide RequireHost;
    hide Chairs;
  }

  lemma HostMuteWritesRows(s: State, step: Step)
    requires TablesTied(s) && SocketsOk(s) && step.Receive? && step.frame.HostMuteFrame? && From(s, step, step.c)
    ensures OnlyPatches(s, step, HandleHostMute(s, s.sockets[step.c], step.frame.target).db.rows)
  {
    forall r | r in s.db.rows ensures Asked(s, step, r) == MuteAsks(s, step, r) { MuteAsksThat(s, step, r); }
    hide Asked;
    hide HandleHostMute;
    hide TablesTied;
    hide SocketsOk;
    hide Chairs;
    hide OnlyPatches;
    HostMuteRows(s, step.c, step.frame.target);
    if Chairs(s, step.c) && Named(s, step.c, step.frame.target) {
      OneRowPatched(s, step, HandleHostMute(s, s.sockets[step.c], step.frame.target).db.rows,
                    step.frame.target.value, MUTED);
    } else {
      NoRowPatched(s, step);
    }
  }

  function MuteAsks(s: State, step: Step, r: RowId): Changes
    requires step.Receive? && step.frame.HostMuteFrame? && step.c in s.sockets
  {
    if Chairs(s, step.c) && Named(s, step.c, step.frame.target) && step.frame.target.value == r then MUTED else NOTHING
  }

  lemma MuteAsksThat(s: State, step: Step, r: RowId)
    requires r in s.db.rows && step.Receive? && step.frame.HostMuteFrame? && From(s, step, step.c)
    ensures Asked(s, step, r) == MuteAsks(s, step, r)
  {
  }

  lemma HostMuteAllRows(s: State, c: ConnId)
    requires TablesTied(s) && SocketsOk(s) && c in s.sockets
    ensures var p := s.sockets[c].participantId;
            && p in s.db.rows
            && HandleHostMuteAll(s, s.sockets[c]).db.rows
               == if Chairs(s, c) then Muted(s.db.rows, OpenRows(s.db.rows, s.sockets[c].meetingId) - {p})
                  else s.db.rows
  {
    RequireHostIff(s, c);
    IdsAreKeys(s);
    hide TablesTied;
    hide Delivered;
    hide RequireHost;
    hide Muted;
    hide OpenRows;
    hide Chairs;
  }

  lemma HostMuteAllWritesRows(s: State, step: Step)
    requires TablesTied(s) && SocketsOk(s) && step.Receive? && step.frame.HostMuteAllFrame? && From(s, step, step.c)
    ensures OnlyPatches(s, step, HandleHostMuteAll(s, s.sockets[step.c]).db.rows)
  {
    hide HandleHostMuteAll;
    hide TablesTied;
    hide Chairs;
    HostMuteAllRows(s, step.c);
    forall r | r in s.db.rows ensures Asked(s, step, r) == MuteAllAsks(s, step, r) { MuteAllAsksThat(s, step, r); }
    hide Asked;
    hide OpenRows;
    hide SocketsOk;
  }

  function MuteAllAsks(s: State, step: Step, r: RowId): Changes
    requires step.Receive? && step.frame.HostMuteAllFrame? && step.c in s.sockets
  {
    if Chairs(s, step.c) && r in OpenRows(s.db.rows, s.sockets[step.c].meetingId)
       && r != s.sockets[step.c].participantId
    then MUTED else NOTHING
  }

  lemma MuteAllAsksThat(s: State, step: Step, r: RowId)
    requires r in s.db.rows && step.Receive? && step.frame.HostMuteAllFrame? && From(s, step, step.c)
    ensures Asked(s, step, r) == MuteAllAsks(s, step, r)
  {
  }

  lemma HostRemoveRows(s: State, c: ConnId, target: Option<RowId>)
    requires TablesTied(s) && SocketsOk(s) && c in s.sockets
    ensures HandleHostRemove(s, s.sockets[c], target).db.rows
         == if Chairs(s, c) && Named(s, c, target) && target.value != s.sockets[c].participantId
            then s.db.rows[target.value := Closed(s.db.rows[target.value], s.clock)]
            else s.db.rows
  {
    RequireHostIff(s, c);
    ClosingKeepsIds(s.db.rows, s.clock);
    IdsAreKeys(s);
    hide TablesTied;
    hide Delivered;
    hide ClosedParticipant;
    hide RequireHost;
    hide Chairs;
    hide Closed;
  }

  lemma HostRemoveWritesRows(s: State, step: Step)
    requires TablesTied(s) && SocketsOk(s) && step.Receive? && step.frame.HostRemoveFrame? && From(s, step, step.c)
    ensures OnlyCloses(s, step, HandleHostRemove(s, s.sockets[step.c], step.frame.target).db.rows)
  {
    HostRemoveRows(s, step.c, step.frame.target);
    forall r | r in s.db.rows ensures Closes(s, step, r) <==> RemoveCloses(s, step, r) { RemoveClosesThat(s, step, r); }
    hide Closes;
    hide HandleHostRemove;
    hide TablesTied;
    hide SocketsOk;
    hide Chairs;
    hide Closed;
  }

  predicate RemoveCloses(s: State, step: Step, r: RowId)
    requires step.Receive? && step.frame.HostRemoveFrame? && step.c in s.sockets
  {
    && Chairs(s, step.c) && Named(s, step.c, step.frame.target) && step.frame.target.value == r
    && r != s.sockets[step.c].participantId
  }

  lemma RemoveClosesThat(s: State, step: Step, r: RowId)
    requires r in s.db.rows && step.Receive? && step.frame.HostRemoveFrame? && From(s, step, step.c)
    ensures Closes(s, step, r) <==> RemoveCloses(s, step, r)
  {
  }

  lemma HostEndWritesRows(s: State, step: Step)
    requires TablesTied(s) && SocketsOk(s) && step.Receive? && step.frame.HostEndFrame? && From(s, step, step.c)
    ensures OnlyCloses(s, step, HandleHostEnd(s, s.sockets[step.c]).db.rows)
  {
    RequireHostIff(s, step.c);
    IdsAreKeys(s);
    EvictedIs(s.db.rows, s.sockets[step.c].meetingId, s.clock);
    hide TablesTied;
    hide Delivered;
    hide RemovedAllBut;
    hide RequireHost;
    hide Evicted;
    hide Closed;
    hide Chairs;
  }

  lemma OtherFramesKeepRows(s: State, c: Connection, frame: ClientFrame)
    requires frame.Ping? || frame.Signal? || frame.ChatSend? || frame.Unrecognized?
    ensures Handle(s, c, frame).db == s.db
  {
    hide Delivered;
  }

  lemma ReceiveWritesRows(s: State, step: Step)
    requires TablesTied(s) && SocketsOk(s) && step.Receive?
    ensures RowsWritten(s, step, Apply(s, step))
  {
    hide Apply;
    hide Handle;
    hide TablesTied;
    hide HandleStateUpdate;
    hide HandleHostMute;
    hide HandleHostMuteAll;
    hide HandleHostRemove;
    hide HandleHostEnd;
    hide OnlyCloses;
    hide OnlyPatches;
    ReceiveApplied(s, step.c, step.frame);
    if From(s, step, step.c) {
      HandleApplied(s, s.sockets[step.c], step.frame);
      hide SocketsOk;
      var t := Apply(s, step);
      match step.frame {
        case StateUpdate(_) =>
          StateUpdateWritesRows(s, step);
          PatchingWritesRows(s, step, t);
        case HostMuteFrame(_) =>
          HostMuteWritesRows(s, step);
          PatchingWritesRows(s, step, t);
        case HostMuteAllFrame =>
          HostMuteAllWritesRows(s, step);
          PatchingWritesRows(s, step, t);
        case HostRemoveFrame(_) =>
          HostRemoveWritesRows(s, step);
          ClosingWritesRows(s, step, t);
        case HostEndFrame =>
          HostEndWritesRows(s, step);
          ClosingWritesRows(s, step, t);
        case _ => OtherFramesKeepRows(s, s.sockets[step.c], step.frame);
      }
    }
  }

  /** Which fields of which rows a step writes, and with what. */
  lemma StepWritesRows(s: State, step: Step)
    requires Invariant(s)
    ensures RowsWritten(s, step, Apply(s, step))
  {
    hide Invariant;
    hide Apply;
    hide TablesTied;
    hide SocketsOk;
    hide RoomsOk;
    hide RowsWritten;
    hide LifecycleProofs.Invariant;
    InvariantTies(s);
    InvariantFacts(s);
    match step {
      case Receive(_, _) => ReceiveWritesRows(s, step);
      case Connect(_, _) => ConnectWritesRows(s, step);
      case Teardown(_) =>
        TeardownWritesRows(s, step);
        ClosingWritesRows(s, step, Apply(s, step));
      case _ => RestWritesRows(s, step);
    }
  }

  lemma RowsOfEveryRun(steps: seq<Step>, step: Step)
    ensures RowsWritten(Run(steps), step, Run(steps + [step]))
  {
    hide Invariant;
    hide RowsWritten;
    Reachable(steps);
    RunStep(steps, step);
    StepWritesRows(Run(steps), step);
  }
}
