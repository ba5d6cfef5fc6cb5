// What the REST calls and the handshake answer, and that a call that is refused writes nothing.

module Answers {
  import opened Model
  import opened Lifecycle
  import LifecycleProofs
  import opened Protocol
  import opened Server
  import opened ServerProofs
  import opened Guarantees
  import opened Columns

  /** What the service answers to the call a step makes. */
  function Answer(s: State, step: Step): Result<Db>
    requires IsRest(step)
  {
    match step
    case Tick(_) => Ok(s.db)
    case CreateMeeting(host, start) => Create(s.db, s.next, host, start, s.clock)
    case UpdateMeeting(m, user, start) => Update(s.db, m, user, start, s.clock)
    case CancelMeeting(m, user) => Cancel(s.db, m, user)
    case StartMeeting(m, user) => Start(s.db, m, user, s.clock)
    case EndMeeting(m, user) => End(s.db, m, user, s.clock)
    case JoinMeeting(m, user, ok, flags) => Join(s.db, s.next, m, user, ok, flags, s.clock)
    case LeaveMeeting(r) => Leave(s.db, r, s.clock)
    case RemoveParticipant(r, actor) => Remove(s.db, r, actor, s.clock)
    case PatchParticipant(r, actor, c) => PatchRow(s.db, r, actor, c)
  }

  /** The reasons a meeting's owner's call may be refused for before the meeting's status is looked at. */
  function NotOwned(s: State, m: MeetingId, user: UserId): Option<ErrorCode> {
    if m !in s.db.meetings then Some(MeetingNotFound)
    else if s.db.meetings[m].hostId != user then Some(NotHost) else None
  }

  function InPast(start: Option<int>, now: int): Option<ErrorCode> {
    if start.Some? && start.value <= now then Some(StartInPast) else None
  }

  function Unless(ok: bool, e: ErrorCode): Option<ErrorCode> {
    if ok then None else Some(e)
  }

  /** The reason that counts when several are to be found. */
  function FirstOf(a: Option<ErrorCode>, b: Option<ErrorCode>): Option<ErrorCode> {
    if a.Some? then a else b
  }

  /** Why a call is refused, in the fields it finds. */
  function Why(s: State, step: Step): Option<ErrorCode> {
    match step
    case CreateMeeting(_, start) => InPast(start, s.clock)
    case UpdateMeeting(m, user, start) =>
      FirstOf(NotOwned(s, m, user),
              FirstOf(Unless(m in s.db.meetings && s.db.meetings[m].status == Scheduled, MeetingNotEditable),
                      InPast(start, s.clock)))
    case CancelMeeting(m, user) =>
      FirstOf(NotOwned(s, m, user),
              Unless(m in s.db.meetings && s.db.meetings[m].status == Scheduled, InvalidStateTransition))
    case StartMeeting(m, user) =>
      FirstOf(NotOwned(s, m, user),
              Unless(m in s.db.meetings && s.db.meetings[m].status in {Scheduled, Ended}, InvalidStateTransition))
    case EndMeeting(m, user) =>
      FirstOf(NotOwned(s, m, user),
              Unless(m in s.db.meetings && s.db.meetings[m].status == Live, InvalidStateTransition))
    case JoinMeeting(m, user, ok, _) =>
      if m !in s.db.meetings then Some(MeetingNotFound)
      else
        FirstOf(Unless(s.db.meetings[m].status in {Scheduled, Live}, MeetingNotJoinable),
                FirstOf(Unless(ok || s.db.meetings[m].hostId == user, InvalidPasscode),
                        Unless(|OpenRows(s.db.rows, m)| < 6, MeetingFull)))
    case LeaveMeeting(r) => Unless(r in s.db.rows, ParticipantNotFound)
    case RemoveParticipant(r, actor) =>
      if r !in s.db.rows then Some(ParticipantNotFound)
      else
        FirstOf(Unless(OwnedBy(s, s.db.rows[r].meetingId, actor), NotHost),
                Unless(s.db.rows[r].userId != actor, CannotRemoveSelf))
    case PatchParticipant(r, actor, _) =>
      if r !in s.db.rows then Some(ParticipantNotFound)
      else Unless(s.db.rows[r].userId == actor || OwnedBy(s, s.db.rows[r].meetingId, actor), NotSelfOrHost)
    case _ => None
  }

  lemma CallsAnswer(s: State, step: Step)
    requires TablesTied(s) && IsRest(step)
    ensures Answer(s, step).Failure() == Why(s, step)
  {
    RowsHaveMeetings(s);
    hide TablesTied;
    hide OpenRows;
    hide Closed;
    hide Patched;
    hide EndedAndEvicted;
  }

  /** The calls are refused for these reasons alone, and a refused call writes nothing. */
  lemma CallsAreRefusedIff(steps: seq<Step>, step: Step)
    requires IsRest(step)
    ensures Answer(Run(steps), step).Failure() == Why(Run(steps), step)
    ensures Run(steps + [step]).db == Answer(Run(steps), step).Or(Run(steps).db)
  {
    hide Run;
    hide Why;
    RunStep(steps, step);
    TiedInEveryRun(steps);
    CallsAnswer(Run(steps), step);
    AnswerIsApplied(Run(steps), step);
  }

  lemma AnswerIsApplied(s: State, step: Step)
    requires IsRest(step)
    ensures Apply(s, step).db == Answer(s, step).Or(s.db)
  {
    hide OpenRows;
    hide Closed;
    hide Patched;
    hide EndedAndEvicted;
  }

  lemma TiedInEveryRun(steps: seq<Step>)
    ensures TablesTied(Run(steps))
  {
    hide Invariant;
    hide TablesTied;
    Reachable(steps);
    InvariantTies(Run(steps));
  }

  /** The handshake answers that a meeting is over only to who holds a session of it. */
  lemma HandshakesAreRefusedIff(steps: seq<Step>, number: MeetingId, session: RowId)
    ensures var s := Run(steps);
            Authenticate(s.db, number, session).Failure()
            == if session !in s.db.rows || s.db.rows[session].meetingId != number then Some(InvalidSession)
               else if number in s.db.meetings && s.db.meetings[number].status in {Ended, Cancelled}
               then Some(MeetingNotJoinable)
               else Unless(s.db.rows[session].leftAt.None?, InvalidSession)
  {
    hide Run;
    TiedInEveryRun(steps);
    RowsHaveMeetings(Run(steps));
    hide TablesTied;
  }
}
