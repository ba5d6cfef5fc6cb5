// The frames of the signaling socket, in both directions, and the roster entry they carry.

module Protocol {
  import opened Model

  /** A row as other participants see it: no session credential, no connection id. */
  datatype RosterEntry = RosterEntry(
    id: RowId, meetingId: MeetingId, userId: UserId, role: Role, flags: Flags, joinedAt: int, leftAt: Option<int>)

  function Serialize(p: Participant): RosterEntry {
    RosterEntry(p.id, p.meetingId, p.userId, p.role, p.flags, p.joinedAt, p.leftAt)
  }

  datatype SignalKind = Offer | Answer | Ice

  datatype ClientFrame =
    | Ping
    | Signal(kind: SignalKind, to: Option<RowId>, payload: nat)
    | StateUpdate(changes: Changes)
    | ChatSend(body: nat)
    | HostMuteFrame(target: Option<RowId>)
    | HostMuteAllFrame
    | HostRemoveFrame(target: Option<RowId>)
    | HostEndFrame
    | Unrecognized

  datatype ServerFrame =
    | RoomState(participants: seq<RosterEntry>, you: RosterEntry)
    | PeerJoined(participant: RosterEntry)
    | PeerLeft(who: RowId)
    | PeerUpdated(who: RowId, flags: Flags)
    | Relayed(kind: SignalKind, from: RowId, payload: nat)
    | ChatMessage(from: RowId, body: nat)
    | HostMutedYou(actor: RowId)
    | HostRemovedYou(actor: RowId)
    | MeetingEnded(actor: RowId)
    | Error(code: ErrorCode)
    | Pong

  // --- Rosters in join order -------------------------------------------------------

  /** Going down from any element ends at the least one. */
  lemma {:induction false} LeastBelow(s: set<nat>, a: nat)
    requires a in s
    ensures exists m :: m in s && forall x :: x in s ==> m <= x
    decreases a
  {
    if b :| b in s && b < a {
      LeastBelow(s, b);
    } else {
      assert a in s && forall x :: x in s ==> a <= x;
    }
  }

  lemma LeastExists(s: set<nat>)
    requires s != {}
    ensures exists m :: m in s && forall x :: x in s ==> m <= x
  {
    var a :| a in s;
    LeastBelow(s, a);
  }

  function Least(s: set<nat>): (m: nat)
    requires s != {}
    ensures m in s && forall x :: x in s ==> m <= x
  {
    LeastExists(s);
    var m :| m in s && forall x :: x in s ==> m <= x;
    m
  }

  /** The ids of `s`, oldest first. */
  function Ascending(s: set<nat>): (r: seq<nat>)
    ensures forall x :: x in s <==> x in r
    ensures forall i, j :: 0 <= i < j < |r| ==> r[i] < r[j]
  {
    if s == {} then []
    else
      var m := Least(s);
      var rest := Ascending(s - {m});
      assert forall x :: x in s <==> x == m || x in s - {m};
      [m] + rest
  }

  function SerializeAll(rows: Rows, ids: seq<RowId>): (r: seq<RosterEntry>)
    requires forall i :: 0 <= i < |ids| ==> ids[i] in rows
    ensures |r| == |ids| && forall i :: 0 <= i < |ids| ==> r[i] == Serialize(rows[ids[i]])
  {
    if ids == [] then [] else [Serialize(rows[ids[0]])] + SerializeAll(rows, ids[1..])
  }
}
