// The service layer as it runs: each method writes the session it is handed, and its
// contract equates what it leaves behind with the function of `Lifecycle` it implements.

module MeetingService {
  import opened Model
  import opened Lifecycle

  method CreateMeeting(s: Session, id: MeetingId, host: UserId, start: Option<int>, now: int)
    returns (error: Option<ErrorCode>)
    modifies s
    ensures s.View() == Create(old(s.View()), id, host, start, now).Or(old(s.View()))
    ensures error == Create(old(s.View()), id, host, start, now).Failure()
  {
    if start.Some? && start.value <= now {
      return Some(StartInPast);
    }
    var isInstant := start.None?;
    var status := if isInstant then Live else Scheduled;
    var startedAt := if isInstant then Some(now) else None;
    s.meetings := s.meetings[id := Meeting(id, host, status, start, startedAt, None, now)];
    return None;
  }

  method UpdateMeeting(s: Session, m: MeetingId, user: UserId, start: Option<int>, now: int)
    returns (error: Option<ErrorCode>)
    requires m in s.meetings ==> s.meetings[m].id == m
    modifies s
    ensures s.View() == Update(old(s.View()), m, user, start, now).Or(old(s.View()))
    ensures error == Update(old(s.View()), m, user, start, now).Failure()
  {
    if m !in s.meetings { return Some(MeetingNotFound); }
    if s.meetings[m].hostId != user { return Some(NotHost); }
    if s.meetings[m].status != Scheduled { return Some(MeetingNotEditable); }
    if start.Some? {
      if start.value <= now { return Some(StartInPast); }
      s.meetings := s.meetings[m := s.meetings[m].(scheduledStart := start)];
    }
    return None;
  }

  method CancelMeeting(s: Session, m: MeetingId, user: UserId) returns (error: Option<ErrorCode>)
    requires m in s.meetings ==> s.meetings[m].id == m
    modifies s
    ensures s.View() == Cancel(old(s.View()), m, user).Or(old(s.View()))
    ensures error == Cancel(old(s.View()), m, user).Failure()
  {
    if m !in s.meetings { return Some(MeetingNotFound); }
    if s.meetings[m].hostId != user { return Some(NotHost); }
    if !CanTransition(s.meetings[m].status, Cancelled) { return Some(InvalidStateTransition); }
    s.meetings := s.meetings[m := s.meetings[m].(status := Cancelled)];
    return None;
  }

  method StartMeeting(s: Session, m: MeetingId, user: UserId, now: int) returns (error: Option<ErrorCode>)
    requires m in s.meetings ==> s.meetings[m].id == m
    modifies s
    ensures s.View() == Start(old(s.View()), m, user, now).Or(old(s.View()))
    ensures error == Start(old(s.View()), m, user, now).Failure()
  {
    if m !in s.meetings { return Some(MeetingNotFound); }
    if s.meetings[m].hostId != user { return Some(NotHost); }
    if !CanTransition(s.meetings[m].status, Live) { return Some(InvalidStateTransition); }
    s.meetings := s.meetings[m := s.meetings[m].(status := Live, startedAt := Some(now), endedAt := None)];
    return None;
  }

  /** Stamps the meeting, then closes the rows still open one at a time. */
  method EndAndEvict(s: Session, m: MeetingId, now: int)
    requires m in s.meetings && s.meetings[m].id == m
    modifies s
    ensures s.View() == EndedAndEvicted(old(s.View()), old(s.meetings[m]), now)
  {
    s.meetings := s.meetings[m := s.meetings[m].(status := Ended, endedAt := Some(now))];
    var active := OpenRows(s.rows, m);
    var todo := active;
    while todo != {}
      invariant todo <= active
      invariant s.meetings == old(s.meetings)[m := old(s.meetings[m]).(status := Ended, endedAt := Some(now))]
      invariant s.rows == Evicted(old(s.rows), active - todo, now)
      decreases todo
    {
      var r :| r in todo;
      s.rows := s.rows[r := s.rows[r].(leftAt := Some(now), connectionId := None)];
      todo := todo - {r};
    }
    assert active - todo == active;
  }

  method EndMeeting(s: Session, m: MeetingId, user: UserId, now: int) returns (error: Option<ErrorCode>)
    requires m in s.meetings ==> s.meetings[m].id == m
    modifies s
    ensures s.View() == End(old(s.View()), m, user, now).Or(old(s.View()))
    ensures error == End(old(s.View()), m, user, now).Failure()
  {
    if m !in s.meetings { return Some(MeetingNotFound); }
    if s.meetings[m].hostId != user { return Some(NotHost); }
    if !CanTransition(s.meetings[m].status, Ended) { return Some(InvalidStateTransition); }
    EndAndEvict(s, m, now);
    return None;
  }
}

module ParticipantService {
  import opened Model
  import opened Lifecycle

  /** Idempotent: a second call on a closed row keeps the original stamp. */
  method MarkLeft(s: Session, r: RowId, now: int)
    requires r in s.rows && s.rows[r].id == r
    modifies s`rows
    ensures s.View() == WithRow(old(s.View()), Closed(old(s.rows[r]), now))
  {
    if s.rows[r].leftAt.None? {
      s.rows := s.rows[r := s.rows[r].(leftAt := Some(now))];
    }
    s.rows := s.rows[r := s.rows[r].(connectionId := None)];
  }

  method JoinMeeting(s: Session, id: RowId, m: MeetingId, user: UserId, passcodeOk: bool, flags: Flags, now: int)
    returns (error: Option<ErrorCode>)
    requires m in s.meetings ==> s.meetings[m].id == m
    modifies s
    ensures s.View() == Join(old(s.View()), id, m, user, passcodeOk, flags, now).Or(old(s.View()))
    ensures error == Join(old(s.View()), id, m, user, passcodeOk, flags, now).Failure()
  {
    if m !in s.meetings { return Some(MeetingNotFound); }
    var meeting := s.meetings[m];
    if meeting.status == Ended || meeting.status == Cancelled { return Some(MeetingNotJoinable); }
    var isHost := meeting.hostId == user;
    if !isHost && !passcodeOk { return Some(InvalidPasscode); }
    if |OpenRows(s.rows, m)| >= MAX_MESH_PARTICIPANTS { return Some(MeetingFull); }
    if isHost && meeting.status != Live {
      s.meetings := s.meetings[m := meeting.(status := Live, startedAt := Some(now), endedAt := None)];
    }
    var role := if isHost then Host else Guest;
    s.rows := s.rows[id := Participant(id, m, user, role, flags, now, None, None)];
    return None;
  }

  method LeaveMeeting(s: Session, r: RowId, now: int) returns (error: Option<ErrorCode>)
    requires r in s.rows ==> s.rows[r].id == r
    modifies s
    ensures s.View() == Leave(old(s.View()), r, now).Or(old(s.View()))
    ensures error == Leave(old(s.View()), r, now).Failure()
  {
    if r !in s.rows { return Some(ParticipantNotFound); }
    MarkLeft(s, r, now);
    return None;
  }

  method RemoveParticipant(s: Session, r: RowId, actor: UserId, now: int) returns (error: Option<ErrorCode>)
    requires r in s.rows ==> s.rows[r].id == r
    modifies s
    ensures s.View() == Remove(old(s.View()), r, actor, now).Or(old(s.View()))
    ensures error == Remove(old(s.View()), r, actor, now).Failure()
  {
    if r !in s.rows || s.rows[r].meetingId !in s.meetings { return Some(ParticipantNotFound); }
    if s.meetings[s.rows[r].meetingId].hostId != actor { return Some(NotHost); }
    if s.rows[r].userId == actor { return Some(CannotRemoveSelf); }
    MarkLeft(s, r, now);
    return None;
  }

  method UpdateParticipant(s: Session, r: RowId, actor: UserId, c: Changes) returns (error: Option<ErrorCode>)
    requires r in s.rows ==> s.rows[r].id == r
    modifies s
    ensures s.View() == PatchRow(old(s.View()), r, actor, c).Or(old(s.View()))
    ensures error == PatchRow(old(s.View()), r, actor, c).Failure()
  {
    if r !in s.rows || s.rows[r].meetingId !in s.meetings { return Some(ParticipantNotFound); }
    var isSelf := s.rows[r].userId == actor;
    var isHost := s.meetings[s.rows[r].meetingId].hostId == actor;
    if !isSelf && !isHost { return Some(NotSelfOrHost); }
    s.rows := s.rows[r := s.rows[r].(flags := Patched(s.rows[r].flags, c))];
    return None;
  }
}

module SignalingService {
  import opened Model
  import opened Lifecycle
  import MeetingService
  import ParticipantService

  method BindConnection(s: Session, r: RowId, c: ConnId)
    requires r in s.rows && s.rows[r].id == r
    modifies s
    ensures s.View() == Bind(old(s.View()), old(s.rows[r]), c)
  {
    s.rows := s.rows[r := s.rows[r].(connectionId := Some(c))];
  }

  /** Closes the row only when this socket still owns it. */
  method ReleaseConnection(s: Session, r: RowId, c: ConnId, now: int) returns (closed: bool)
    requires r in s.rows ==> s.rows[r].id == r
    modifies s
    ensures closed == Release(old(s.View()), r, c, now).Some?
    ensures s.View() == if closed then Release(old(s.View()), r, c, now).value else old(s.View())
  {
    if r !in s.rows || s.rows[r].connectionId != Some(c) { return false; }
    ParticipantService.MarkLeft(s, r, now);
    return true;
  }

  method ApplyStateUpdate(s: Session, r: RowId, c: Changes) returns (error: Option<ErrorCode>)
    requires r in s.rows ==> s.rows[r].id == r
    modifies s
    ensures s.View() == Lifecycle.ApplyStateUpdate(old(s.View()), r, c).Or(old(s.View()))
    ensures error == Lifecycle.ApplyStateUpdate(old(s.View()), r, c).Failure()
  {
    if r !in s.rows { return Some(ParticipantNotFound); }
    s.rows := s.rows[r := s.rows[r].(flags := Patched(s.rows[r].flags, c))];
    return None;
  }

  method HostMute(s: Session, actor: RowId, target: RowId) returns (error: Option<ErrorCode>)
    requires actor in s.rows && s.rows[actor].id == actor
    requires target in s.rows ==> s.rows[target].id == target
    modifies s
    ensures s.View() == Lifecycle.HostMute(old(s.View()), old(s.rows[actor]), target).Or(old(s.View()))
    ensures error == Lifecycle.HostMute(old(s.View()), old(s.rows[actor]), target).Failure()
  {
    var host := RequireHost(s.View(), s.rows[actor]);
    if host.Err? { return Some(host.error); }
    if target !in s.rows || s.rows[target].meetingId != s.rows[actor].meetingId { return Some(ParticipantNotFound); }
    s.rows := s.rows[target := s.rows[target].(flags := s.rows[target].flags.(muted := true))];
    return None;
  }

  method HostMuteAll(s: Session, actor: RowId) returns (error: Option<ErrorCode>, muted: set<RowId>)
    requires actor in s.rows && s.rows[actor].id == actor
    modifies s
    ensures s.View() == Lifecycle.HostMuteAll(old(s.View()), old(s.rows[actor])).Or(old(s.View()))
    ensures error == Lifecycle.HostMuteAll(old(s.View()), old(s.rows[actor])).Failure()
    ensures muted == if error.None? then Mutable(old(s.View()), old(s.rows[actor])) else {}
  {
    var host := RequireHost(s.View(), s.rows[actor]);
    if host.Err? { return Some(host.error), {}; }
    muted := OpenRows(s.rows, s.rows[actor].meetingId) - {actor};
    var todo := muted;
    while todo != {}
      invariant todo <= muted
      invariant s.meetings == old(s.meetings)
      invariant s.rows == Muted(old(s.rows), muted - todo)
      decreases todo
    {
      var r :| r in todo;
      s.rows := s.rows[r := s.rows[r].(flags := s.rows[r].flags.(muted := true))];
      todo := todo - {r};
    }
    assert muted - todo == muted;
    return None, muted;
  }

  method HostRemove(s: Session, actor: RowId, target: RowId, now: int) returns (error: Option<ErrorCode>)
    requires actor in s.rows && s.rows[actor].id == actor
    requires target in s.rows ==> s.rows[target].id == target
    modifies s
    ensures s.View() == Lifecycle.HostRemove(old(s.View()), old(s.rows[actor]), target, now).Or(old(s.View()))
    ensures error == Lifecycle.HostRemove(old(s.View()), old(s.rows[actor]), target, now).Failure()
  {
    var host := RequireHost(s.View(), s.rows[actor]);
    if host.Err? { return Some(host.error); }
    if target !in s.rows || s.rows[target].meetingId != s.rows[actor].meetingId { return Some(ParticipantNotFound); }
    if target == actor { return Some(CannotRemoveSelf); }
    ParticipantService.MarkLeft(s, target, now);
    return None;
  }

  method HostEndMeeting(s: Session, actor: RowId, now: int) returns (error: Option<ErrorCode>)
    requires actor in s.rows
    requires forall m :: m in s.meetings ==> s.meetings[m].id == m
    modifies s
    ensures s.View() == HostEnd(old(s.View()), old(s.rows[actor]), now).Or(old(s.View()))
    ensures error == HostEnd(old(s.View()), old(s.rows[actor]), now).Failure()
  {
    var host := RequireHost(s.View(), s.rows[actor]);
    if host.Err? { return Some(host.error); }
    MeetingService.EndAndEvict(s, host.value.id, now);
    return None;
  }
}
