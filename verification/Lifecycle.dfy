// What each service call does to the tables, as a function of the tables it finds.
// One call is one transaction: it either returns the new tables or refuses.

module Lifecycle {
  import opened Model

  const MAX_MESH_PARTICIPANTS: nat := 6

  // --- The meeting state machine -------------------------------------------

  function AllowedTargets(current: Status): set<Status> {
    match current
    case Scheduled => {Live, Cancelled}
    case Live => {Ended}
    case Ended => {Live}
    case Cancelled => {}
  }

  predicate CanTransition(current: Status, target: Status) {
    target in AllowedTargets(current)
  }

  predicate Over(m: Meeting) {
    m.status == Ended || m.status == Cancelled
  }

  // --- Rows ------------------------------------------------------------------

  /** The rows of meeting `m` that are currently present. */
  function OpenRows(rows: Rows, m: MeetingId): set<RowId> {
    set r | r in rows && rows[r].meetingId == m && rows[r].leftAt.None?
  }

  /** `mark_left`: the first closing stamp stays. */
  function Closed(p: Participant, now: int): Participant {
    p.(leftAt := if p.leftAt.None? then Some(now) else p.leftAt, connectionId := None)
  }

  function Evicted(rows: Rows, ids: set<RowId>, now: int): Rows {
    map r | r in rows :: if r in ids then rows[r].(leftAt := Some(now), connectionId := None) else rows[r]
  }

  function Muted(rows: Rows, ids: set<RowId>): Rows {
    map r | r in rows :: if r in ids then rows[r].(flags := rows[r].flags.(muted := true)) else rows[r]
  }

  function WithRow(db: Db, p: Participant): Db {
    db.(rows := db.rows[p.id := p])
  }

  function WithMeeting(db: Db, m: Meeting): Db {
    db.(meetings := db.meetings[m.id := m])
  }

  // --- meeting_service -------------------------------------------------------

  /** An instant meeting (no scheduled start) is born live. */
  function Create(db: Db, id: MeetingId, host: UserId, start: Option<int>, now: int): Result<Db> {
    if start.Some? && start.value <= now then Err(StartInPast)
    else
      var status := if start.None? then Live else Scheduled;
      var startedAt := if start.None? then Some(now) else None;
      Ok(WithMeeting(db, Meeting(id, host, status, start, startedAt, None, now)))
  }

  function HostedMeeting(db: Db, m: MeetingId, user: UserId): Result<Meeting> {
    if m !in db.meetings then Err(MeetingNotFound)
    else if db.meetings[m].hostId != user then Err(NotHost)
    else Ok(db.meetings[m])
  }

  function Update(db: Db, m: MeetingId, user: UserId, start: Option<int>, now: int): Result<Db> {
    match HostedMeeting(db, m, user)
    case Err(e) => Err(e)
    case Ok(meeting) =>
      if meeting.status != Scheduled then Err(MeetingNotEditable)
      else if start.None? then Ok(db)
      else if start.value <= now then Err(StartInPast)
      else Ok(WithMeeting(db, meeting.(scheduledStart := start)))
  }

  function Cancel(db: Db, m: MeetingId, user: UserId): Result<Db> {
    match HostedMeeting(db, m, user)
    case Err(e) => Err(e)
    case Ok(meeting) =>
      if !CanTransition(meeting.status, Cancelled) then Err(InvalidStateTransition)
      else Ok(WithMeeting(db, meeting.(status := Cancelled)))
  }

  function Start(db: Db, m: MeetingId, user: UserId, now: int): Result<Db> {
    match HostedMeeting(db, m, user)
    case Err(e) => Err(e)
    case Ok(meeting) =>
      if !CanTransition(meeting.status, Live) then Err(InvalidStateTransition)
      else Ok(WithMeeting(db, meeting.(status := Live, startedAt := Some(now), endedAt := None)))
  }

  /** The tables after meeting `m` is stamped ended and everyone in it is evicted. */
  function EndedAndEvicted(db: Db, meeting: Meeting, now: int): Db {
    Db(db.meetings[meeting.id := meeting.(status := Ended, endedAt := Some(now))],
       Evicted(db.rows, OpenRows(db.rows, meeting.id), now))
  }

  function End(db: Db, m: MeetingId, user: UserId, now: int): Result<Db> {
    match HostedMeeting(db, m, user)
    case Err(e) => Err(e)
    case Ok(meeting) =>
      if !CanTransition(meeting.status, Ended) then Err(InvalidStateTransition)
      else Ok(EndedAndEvicted(db, meeting, now))
  }

  // --- participant_service -----------------------------------------------------

  /** `passcodeOk` stands for the passcode and invite-token comparison, which only non-hosts face. */
  function Join(db: Db, id: RowId, m: MeetingId, user: UserId, passcodeOk: bool, flags: Flags, now: int)
    : Result<Db>
  {
    if m !in db.meetings then Err(MeetingNotFound)
    else
      var meeting := db.meetings[m];
      var isHost := meeting.hostId == user;
      if Over(meeting) then Err(MeetingNotJoinable)
      else if !isHost && !passcodeOk then Err(InvalidPasscode)
      else if |OpenRows(db.rows, m)| >= MAX_MESH_PARTICIPANTS then Err(MeetingFull)
      else
        var started :=
          if isHost && meeting.status != Live
          then WithMeeting(db, meeting.(status := Live, startedAt := Some(now), endedAt := None))
          else db;
        Ok(WithRow(started,
                   Participant(id, m, user, if isHost then Host else Guest, flags, now, None, None)))
  }

  function Leave(db: Db, r: RowId, now: int): Result<Db> {
    if r !in db.rows then Err(ParticipantNotFound)
    else Ok(WithRow(db, Closed(db.rows[r], now)))
  }

  function Remove(db: Db, r: RowId, actor: UserId, now: int): Result<Db> {
    if r !in db.rows || db.rows[r].meetingId !in db.meetings then Err(ParticipantNotFound)
    else if db.meetings[db.rows[r].meetingId].hostId != actor then Err(NotHost)
    else if db.rows[r].userId == actor then Err(CannotRemoveSelf)
    else Ok(WithRow(db, Closed(db.rows[r], now)))
  }

  function PatchRow(db: Db, r: RowId, actor: UserId, c: Changes): Result<Db> {
    if r !in db.rows || db.rows[r].meetingId !in db.meetings then Err(ParticipantNotFound)
    else if db.rows[r].userId != actor && db.meetings[db.rows[r].meetingId].hostId != actor
    then Err(NotSelfOrHost)
    else Ok(WithRow(db, db.rows[r].(flags := Patched(db.rows[r].flags, c))))
  }

  // --- signaling_service -------------------------------------------------------

  /** The session id is a unique column minted with the row; the row id stands for it. */
  function Authenticate(db: Db, number: MeetingId, session: RowId): Result<Participant> {
    if session !in db.rows then Err(InvalidSession)
    else
      var p := db.rows[session];
      if p.meetingId !in db.meetings || p.meetingId != number then Err(InvalidSession)
      else if Over(db.meetings[p.meetingId]) then Err(MeetingNotJoinable)
      else if p.leftAt.Some? then Err(InvalidSession)
      else Ok(p)
  }

  predicate RoomHasSpace(db: Db, m: MeetingId) {
    |OpenRows(db.rows, m)| <= MAX_MESH_PARTICIPANTS
  }

  function Bind(db: Db, p: Participant, c: ConnId): Db {
    WithRow(db, p.(connectionId := Some(c)))
  }

  /** `None` when the socket does not own the row: nothing is closed. */
  function Release(db: Db, r: RowId, c: ConnId, now: int): Option<Db> {
    if r !in db.rows || db.rows[r].connectionId != Some(c) then None
    else Some(WithRow(db, Closed(db.rows[r], now)))
  }

  function ApplyStateUpdate(db: Db, r: RowId, c: Changes): Result<Db> {
    if r !in db.rows then Err(ParticipantNotFound)
    else Ok(WithRow(db, db.rows[r].(flags := Patched(db.rows[r].flags, c))))
  }

  /** The role stamped on the row and the ownership of the meeting must agree. */
  function RequireHost(db: Db, actor: Participant): Result<Meeting> {
    if actor.meetingId !in db.meetings then Err(MeetingNotFound)
    else
      var meeting := db.meetings[actor.meetingId];
      if actor.role != Host || meeting.hostId != actor.userId then Err(NotHost)
      else Ok(meeting)
  }

  function HostMute(db: Db, actor: Participant, target: RowId): Result<Db> {
    match RequireHost(db, actor)
    case Err(e) => Err(e)
    case Ok(_) =>
      if target !in db.rows || db.rows[target].meetingId != actor.meetingId then Err(ParticipantNotFound)
      else Ok(WithRow(db, db.rows[target].(flags := db.rows[target].flags.(muted := true))))
  }

  function Mutable(db: Db, actor: Participant): set<RowId> {
    OpenRows(db.rows, actor.meetingId) - {actor.id}
  }

  function HostMuteAll(db: Db, actor: Participant): Result<Db> {
    match RequireHost(db, actor)
    case Err(e) => Err(e)
    case Ok(_) => Ok(db.(rows := Muted(db.rows, Mutable(db, actor))))
  }

  function HostRemove(db: Db, actor: Participant, target: RowId, now: int): Result<Db> {
    match RequireHost(db, actor)
    case Err(e) => Err(e)
    case Ok(_) =>
      if target !in db.rows || db.rows[target].meetingId != actor.meetingId then Err(ParticipantNotFound)
      else if target == actor.id then Err(CannotRemoveSelf)
      else Ok(WithRow(db, Closed(db.rows[target], now)))
  }

  /** Never consults the transition table: it trusts the host row instead. */
  function HostEnd(db: Db, actor: Participant, now: int): Result<Db> {
    match RequireHost(db, actor)
    case Err(e) => Err(e)
    case Ok(meeting) => Ok(EndedAndEvicted(db, meeting, now))
  }
}
