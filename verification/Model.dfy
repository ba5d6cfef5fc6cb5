// Entities shared by the whole model: meetings, participant rows, and the
// database session through which the services read and write them.

module Model {

  datatype Option<+T> = None | Some(value: T)

  datatype Result<+T> = Ok(value: T) | Err(error: ErrorCode)
  {
    /** The new state on success, the old one when the call was refused. */
    function Or(otherwise: T): T {
      match this
      case Ok(v) => v
      case Err(_) => otherwise
    }

    function Failure(): Option<ErrorCode> {
      match this
      case Ok(_) => None
      case Err(e) => Some(e)
    }
  }

  datatype ErrorCode =
    | MeetingNotFound | NotHost | InvalidStateTransition | MeetingNotEditable | StartInPast
    | MeetingNotJoinable | InvalidPasscode | MeetingFull
    | ParticipantNotFound | NotSelfOrHost | CannotRemoveSelf | InvalidSession
    | BadFrame | PeerNotInRoom | UnknownFrame

  // Every id is minted fresh. Ids are drawn from one counter, so a smaller id was minted earlier.
  type UserId = nat
  type MeetingId = nat
  type RowId = nat
  type ConnId = nat

  datatype Status = Scheduled | Live | Ended | Cancelled

  datatype Role = Host | Guest

  /** The three media flags a participant row carries. */
  datatype Flags = Flags(muted: bool, videoOn: bool, handRaised: bool)

  /** A partial update; an absent field is left alone. */
  datatype Changes = Changes(muted: Option<bool>, videoOn: Option<bool>, handRaised: Option<bool>)

  function Pick(change: Option<bool>, current: bool): bool {
    if change.Some? then change.value else current
  }

  function Patched(f: Flags, c: Changes): Flags {
    Flags(Pick(c.muted, f.muted), Pick(c.videoOn, f.videoOn), Pick(c.handRaised, f.handRaised))
  }

  datatype Meeting = Meeting(
    id: MeetingId,
    hostId: UserId,
    status: Status,
    scheduledStart: Option<int>,
    startedAt: Option<int>,
    endedAt: Option<int>,
    createdAt: int)

  datatype Participant = Participant(
    id: RowId,
    meetingId: MeetingId,
    userId: UserId,
    role: Role,
    flags: Flags,
    joinedAt: int,
    leftAt: Option<int>,
    connectionId: Option<ConnId>)

  type Rows = map<RowId, Participant>

  datatype Db = Db(meetings: map<MeetingId, Meeting>, rows: Rows)

  /** The database session every service call is handed. */
  class Session {
    var meetings: map<MeetingId, Meeting>
    var rows: Rows

    constructor ()
      ensures View() == Db(map[], map[])
    {
      meetings, rows := map[], map[];
    }

    function View(): Db
      reads this
    {
      Db(meetings, rows)
    }
  }
}
