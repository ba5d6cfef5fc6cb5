// What every service call keeps. The invariant links meetings to their rows; the
// discipline relates the tables before and after one call.

module LifecycleProofs {
  import opened Model
  import opened Lifecycle

  // --- The invariant -----------------------------------------------------------

  predicate Before(stamp: Option<int>, now: int) {
    stamp.Some? ==> stamp.value <= now
  }

  /** `endedAt` is set exactly while the meeting is over by ending; a running meeting has a start. */
  predicate StampsOk(m: Meeting, now: int) {
    && (m.endedAt.Some? <==> m.status == Ended)
    && (m.startedAt.Some? <==> m.status == Live || m.status == Ended)
    && (m.status == Ended ==> m.startedAt.value <= m.endedAt.value)
    && Before(m.startedAt, now) && Before(m.endedAt, now)
    && m.createdAt <= now
  }

  predicate RowOk(db: Db, p: Participant, now: int) {
    && p.meetingId in db.meetings
    && var m := db.meetings[p.meetingId];
    && (p.role == Host <==> p.userId == m.hostId)
    && (p.role == Host ==> m.status == Live || m.status == Ended)
    && (m.status == Ended ==> p.leftAt.Some?)
    && (p.leftAt.Some? ==> p.joinedAt <= p.leftAt.value)
    && p.joinedAt <= now && Before(p.leftAt, now)
  }

  ghost predicate MeetingsOk(db: Db, now: int) {
    forall m :: m in db.meetings ==> db.meetings[m].id == m && StampsOk(db.meetings[m], now)
  }

  ghost predicate RowsOk(db: Db, now: int) {
    forall r :: r in db.rows ==> db.rows[r].id == r && RowOk(db, db.rows[r], now)
  }

  ghost predicate CapHolds(db: Db) {
    forall m :: m in db.meetings ==> |OpenRows(db.rows, m)| <= MAX_MESH_PARTICIPANTS
  }

  ghost predicate Invariant(db: Db, now: int) {
    MeetingsOk(db, now) && RowsOk(db, now) && CapHolds(db)
  }

  // --- The discipline ------------------------------------------------------------

  /** A write to `status` leaves it unchanged or follows an edge of the transition table. */
  ghost predicate StatusDiscipline(a: Db, b: Db) {
    forall m :: m in a.meetings ==>
      && m in b.meetings
      && (b.meetings[m].status == a.meetings[m].status
          || CanTransition(a.meetings[m].status, b.meetings[m].status))
  }

  /** Ownership and creation never change, rows are never deleted or moved, and a row closes once. */
  ghost predicate HistoryKept(a: Db, b: Db) {
    && (forall m :: m in a.meetings ==>
          && m in b.meetings
          && b.meetings[m].hostId == a.meetings[m].hostId
          && b.meetings[m].createdAt == a.meetings[m].createdAt)
    && (forall r :: r in a.rows ==>
          && r in b.rows
          && RowKept(a.rows[r], b.rows[r]))
  }

  predicate RowKept(p: Participant, q: Participant) {
    && q.id == p.id && q.meetingId == p.meetingId && q.userId == p.userId
    && q.role == p.role && q.joinedAt == p.joinedAt
    && (p.leftAt.Some? ==> q.leftAt == p.leftAt)
  }

  ghost predicate Step(a: Db, b: Db, now: int) {
    Invariant(b, now) && StatusDiscipline(a, b) && HistoryKept(a, b)
  }

  /** A row keeps the socket it names, and stays open or closed, until it closes naming none; a new row names none. */
  predicate SocketKept(rows: Rows, q: Participant) {
    if q.id in rows
    then
      || (q.connectionId == rows[q.id].connectionId && q.leftAt == rows[q.id].leftAt)
      || (q.connectionId.None? && q.leftAt.Some?)
    else q.connectionId.None?
  }

  ghost predicate BindsNothing(a: Db, b: Db) {
    forall r :: r in b.rows ==> b.rows[r].id == r && SocketKept(a.rows, b.rows[r])
  }

  /** A step of any call but the binding of a socket. */
  ghost predicate Calm(a: Db, b: Db, now: int) {
    Step(a, b, now) && BindsNothing(a, b)
  }

  /** A calm step in which only ids in `minted` are new. */
  ghost predicate Move(a: Db, b: Db, minted: set<nat>, now: int) {
    && Calm(a, b, now)
    && b.meetings.Keys <= a.meetings.Keys + minted
    && b.rows.Keys <= a.rows.Keys + minted
  }

  // --- Mesh cap ------------------------------------------------------------------

  /** A change that opens no row of any meeting keeps the cap. */
  lemma CapKept(a: Db, b: Db)
    requires CapHolds(a)
    requires forall m :: m in b.meetings ==> OpenRows(b.rows, m) <= OpenRows(a.rows, m)
    requires forall m :: m in b.meetings && m !in a.meetings ==> OpenRows(b.rows, m) == {}
    ensures CapHolds(b)
  {
    forall m | m in b.meetings ensures |OpenRows(b.rows, m)| <= MAX_MESH_PARTICIPANTS {
      SubsetIsNoLarger(OpenRows(b.rows, m), OpenRows(a.rows, m));
      if m in a.meetings {
        assert |OpenRows(a.rows, m)| <= MAX_MESH_PARTICIPANTS;
      }
    }
  }

  lemma {:induction false} SubsetIsNoLarger<T>(a: set<T>, b: set<T>)
    requires a <= b
    ensures |a| <= |b|
  {
    assert b == a + (b - a);
  }

  // --- Every call keeps the invariant and the discipline ---------------------------

  /** A rewrite of one row that keeps its identity and its closing stamp. */
  predicate RowRewrite(db: Db, p: Participant, now: int) {
    && p.id in db.rows && RowKept(db.rows[p.id], p)
    && (p.leftAt.Some? ==> p.joinedAt <= p.leftAt.value <= now)
  }

  lemma RowFacts(db: Db, r: RowId, now: int)
    requires Invariant(db, now) && r in db.rows
    ensures db.rows[r].id == r && RowOk(db, db.rows[r], now)
  {
  }

  lemma MeetingFacts(db: Db, m: MeetingId, now: int)
    requires Invariant(db, now) && m in db.meetings
    ensures db.meetings[m].id == m && StampsOk(db.meetings[m], now)
  {
  }

  lemma RowWriteBinds(db: Db, p: Participant)
    requires forall r :: r in db.rows ==> db.rows[r].id == r
    requires p.id in db.rows && SocketKept(db.rows, p)
    ensures BindsNothing(db, WithRow(db, p))
  {
  }

  lemma KeysAreIds(db: Db, now: int)
    requires Invariant(db, now)
    ensures forall r :: r in db.rows ==> db.rows[r].id == r
  {
  }

  lemma RowWriteRows(db: Db, p: Participant, t: int, now: int)
    requires RowsOk(db, t) && t <= now && RowRewrite(db, p, now)
    ensures RowsOk(WithRow(db, p), now)
  {
    var b := WithRow(db, p);
    forall r | r in b.rows ensures b.rows[r].id == r && RowOk(b, b.rows[r], now) {
      assert RowOk(db, db.rows[r], t);
    }
  }

  lemma RowWriteHistory(db: Db, p: Participant, t: int, now: int)
    requires RowsOk(db, t) && MeetingsOk(db, t) && t <= now && RowRewrite(db, p, now)
    ensures MeetingsOk(WithRow(db, p), now)
    ensures StatusDiscipline(db, WithRow(db, p)) && HistoryKept(db, WithRow(db, p))
  {
    assert db.rows[p.id].id == p.id;
  }

  lemma RowWriteSteps(db: Db, p: Participant, t: int, now: int)
    requires Invariant(db, t) && t <= now && RowRewrite(db, p, now)
    ensures Step(db, WithRow(db, p), now)
  {
    hide MeetingsOk;
    hide RowsOk;
    hide CapHolds;
    hide StatusDiscipline;
    hide HistoryKept;
    hide BindsNothing;
    RowWriteRows(db, p, t, now);
    RowWriteHistory(db, p, t, now);

    CapKept(db, WithRow(db, p));
  }

  lemma CloseSteps(db: Db, r: RowId, t: int, now: int)
    requires Invariant(db, t) && t <= now && r in db.rows
    ensures Move(db, WithRow(db, Closed(db.rows[r], now)), {}, now)
  {
    hide Invariant;
    hide StatusDiscipline;
    hide HistoryKept;
    hide BindsNothing;
    RowFacts(db, r, t);
    KeysAreIds(db, t);
    RowWriteSteps(db, Closed(db.rows[r], now), t, now);
    RowWriteBinds(db, Closed(db.rows[r], now));
  }

  lemma FlagSteps(db: Db, r: RowId, f: Flags, t: int, now: int)
    requires Invariant(db, t) && t <= now && r in db.rows
    ensures Move(db, WithRow(db, db.rows[r].(flags := f)), {}, now)
  {
    hide Invariant;
    hide StatusDiscipline;
    hide HistoryKept;
    hide BindsNothing;
    RowFacts(db, r, t);
    KeysAreIds(db, t);
    RowWriteSteps(db, db.rows[r].(flags := f), t, now);
    RowWriteBinds(db, db.rows[r].(flags := f));
  }

  lemma BindSteps(db: Db, r: RowId, c: ConnId, t: int, now: int)
    requires Invariant(db, t) && t <= now && r in db.rows
    ensures Step(db, Bind(db, db.rows[r], c), now)
  {
    RowWriteSteps(db, db.rows[r].(connectionId := Some(c)), t, now);
  }

  lemma SkipHistory(db: Db, t: int, now: int)
    requires Invariant(db, t) && t <= now
    ensures MeetingsOk(db, now) && RowsOk(db, now)
    ensures StatusDiscipline(db, db) && HistoryKept(db, db) && BindsNothing(db, db)
  {
    hide CapHolds;
  }

  lemma SkipSteps(db: Db, t: int, now: int)
    requires Invariant(db, t) && t <= now
    ensures Move(db, db, {}, now)
  {
    hide MeetingsOk;
    hide RowsOk;
    hide CapHolds;
    hide StatusDiscipline;
    hide HistoryKept;
    hide BindsNothing;
    SkipHistory(db, t, now);
  }

  lemma MintMore(a: Db, b: Db, minted: set<nat>, now: int)
    requires Move(a, b, {}, now)
    ensures Move(a, b, minted, now)
  {
    hide Step;
    hide BindsNothing;
  }

  lemma ClockAdvances(db: Db, t: int, now: int)
    requires Invariant(db, t) && t <= now
    ensures Invariant(db, now)
  {
  }

  lemma MeetingOpenRows(db: Db, m: Meeting, t: int, now: int)
    requires Invariant(db, t) && t <= now && m.id !in db.meetings
    ensures RowsOk(WithMeeting(db, m), now) && CapHolds(WithMeeting(db, m))
  {
    var b := WithMeeting(db, m);
    forall r | r in db.rows ensures RowOk(b, b.rows[r], now) && db.rows[r].meetingId != m.id {
      assert RowOk(db, db.rows[r], t);
    }
    assert OpenRows(b.rows, m.id) == {};
    CapKept(db, b);
  }

  lemma MeetingOpenHistory(db: Db, m: Meeting, t: int, now: int)
    requires MeetingsOk(db, t) && RowsOk(db, t) && t <= now && m.id !in db.meetings && StampsOk(m, now)
    ensures MeetingsOk(WithMeeting(db, m), now)
    ensures StatusDiscipline(db, WithMeeting(db, m)) && HistoryKept(db, WithMeeting(db, m))
    ensures BindsNothing(db, WithMeeting(db, m))
  {
  }

  lemma MeetingOpenSteps(db: Db, m: Meeting, t: int, now: int)
    requires Invariant(db, t) && t <= now && m.id !in db.meetings && StampsOk(m, now)
    ensures Move(db, WithMeeting(db, m), {m.id}, now)
  {
    hide MeetingsOk;
    hide RowsOk;
    hide CapHolds;
    hide StatusDiscipline;
    hide HistoryKept;
    hide BindsNothing;
    MeetingOpenRows(db, m, t, now);
    MeetingOpenHistory(db, m, t, now);
  }

  predicate Hosts(db: Db, m: MeetingId, user: UserId) {
    m in db.meetings && db.meetings[m].hostId == user
  }

  lemma CreateSteps(db: Db, id: MeetingId, host: UserId, start: Option<int>, t: int, now: int)
    requires Invariant(db, t) && t <= now && id !in db.meetings
    ensures Move(db, Create(db, id, host, start, now).Or(db), {id}, now)
    ensures Create(db, id, host, start, now).Ok? ==>
              var b := Create(db, id, host, start, now).value;
              && b.rows == db.rows && b.meetings.Keys == db.meetings.Keys + {id}
              && forall k :: k in db.meetings ==> b.meetings[k] == db.meetings[k]
  {
    hide Move;
    hide Invariant;
    SkipSteps(db, t, now);
    MintMore(db, db, {id}, now);
    if Create(db, id, host, start, now).Ok? {
      MeetingOpenSteps(db, Create(db, id, host, start, now).value.meetings[id], t, now);
    }
  }

  /** A new status for meeting `m` that its rows can live with. */
  predicate Rewrite(db: Db, m: Meeting, now: int) {
    && m.id in db.meetings && StampsOk(m, now)
    && m.hostId == db.meetings[m.id].hostId && m.createdAt == db.meetings[m.id].createdAt
    && (m.status == db.meetings[m.id].status || CanTransition(db.meetings[m.id].status, m.status))
  }

  lemma MeetingWriteRows(db: Db, m: Meeting, t: int, now: int)
    requires RowsOk(db, t) && t <= now && Rewrite(db, m, now)
    requires m.status == Ended ==> OpenRows(db.rows, m.id) == {}
    ensures RowsOk(WithMeeting(db, m), now)
  {
    var b := WithMeeting(db, m);
    forall r | r in b.rows ensures RowOk(b, b.rows[r], now) {
      assert RowOk(db, db.rows[r], t);
      if db.rows[r].meetingId == m.id && m.status == Ended {
        assert r !in OpenRows(db.rows, m.id);
      }
    }
  }

  lemma MeetingWriteHistory(db: Db, m: Meeting, t: int, now: int)
    requires MeetingsOk(db, t) && RowsOk(db, t) && t <= now && Rewrite(db, m, now)
    ensures MeetingsOk(WithMeeting(db, m), now)
    ensures StatusDiscipline(db, WithMeeting(db, m)) && HistoryKept(db, WithMeeting(db, m))
    ensures BindsNothing(db, WithMeeting(db, m))
  {
  }

  lemma MeetingWriteSteps(db: Db, m: Meeting, t: int, now: int)
    requires Invariant(db, t) && t <= now && Rewrite(db, m, now)
    requires m.status == Ended ==> OpenRows(db.rows, m.id) == {}
    ensures Move(db, WithMeeting(db, m), {}, now)
  {
    hide MeetingsOk;
    hide RowsOk;
    hide CapHolds;
    hide StatusDiscipline;
    hide HistoryKept;
    hide BindsNothing;
    MeetingWriteRows(db, m, t, now);
    MeetingWriteHistory(db, m, t, now);
    CapKept(db, WithMeeting(db, m));
  }

  lemma UpdateSteps(db: Db, m: MeetingId, user: UserId, start: Option<int>, t: int, now: int)
    requires Invariant(db, t) && t <= now
    ensures Move(db, Update(db, m, user, start, now).Or(db), {}, now)
    ensures var b := Update(db, m, user, start, now).Or(db);
            && b.rows == db.rows && forall k :: k in db.meetings ==> b.meetings[k].status == db.meetings[k].status
    ensures Update(db, m, user, start, now).Ok? ==> db.meetings[m].status == Scheduled
  {
    hide Move;
    hide Invariant;
    SkipSteps(db, t, now);
    if Update(db, m, user, start, now).Ok? && start.Some? {
      MeetingFacts(db, m, t);
      MeetingWriteSteps(db, db.meetings[m].(scheduledStart := start), t, now);
    }
  }

  lemma CancelSteps(db: Db, m: MeetingId, user: UserId, t: int, now: int)
    requires Invariant(db, t) && t <= now
    ensures Move(db, Cancel(db, m, user).Or(db), {}, now)
    ensures Cancel(db, m, user).Or(db).rows == db.rows
    ensures Cancel(db, m, user).Ok? <==> Hosts(db, m, user) && db.meetings[m].status == Scheduled
  {
    hide Move;
    hide Invariant;
    SkipSteps(db, t, now);
    if Cancel(db, m, user).Ok? {
      MeetingFacts(db, m, t);
      MeetingWriteSteps(db, db.meetings[m].(status := Cancelled), t, now);
    }
  }

  lemma StartSteps(db: Db, m: MeetingId, user: UserId, t: int, now: int)
    requires Invariant(db, t) && t <= now
    ensures Move(db, Start(db, m, user, now).Or(db), {}, now)
    ensures Start(db, m, user, now).Or(db).rows == db.rows
    ensures Start(db, m, user, now).Ok? <==> Hosts(db, m, user) && db.meetings[m].status in {Scheduled, Ended}
    ensures Start(db, m, user, now).Ok? ==> Start(db, m, user, now).value.meetings[m].endedAt.None?
  {
    hide Move;
    hide Invariant;
    SkipSteps(db, t, now);
    if Start(db, m, user, now).Ok? {
      MeetingFacts(db, m, t);
      MeetingWriteSteps(db, db.meetings[m].(status := Live, startedAt := Some(now), endedAt := None), t, now);
    }
  }

  lemma EvictionRows(db: Db, m: MeetingId, t: int, now: int)
    requires Invariant(db, t) && t <= now && m in db.meetings
    requires db.meetings[m].status == Live || db.meetings[m].status == Ended
    ensures RowsOk(EndedAndEvicted(db, db.meetings[m], now), now)
  {
    var b := EndedAndEvicted(db, db.meetings[m], now);
    forall r | r in b.rows ensures b.rows[r].id == r && RowOk(b, b.rows[r], now) {
      assert RowOk(db, db.rows[r], t);
      assert r in OpenRows(db.rows, m) <==> db.rows[r].meetingId == m && db.rows[r].leftAt.None?;
    }
  }

  lemma EvictionCap(db: Db, meeting: Meeting, now: int)
    requires CapHolds(db) && meeting.id in db.meetings
    ensures CapHolds(EndedAndEvicted(db, meeting, now))
    ensures OpenRows(EndedAndEvicted(db, meeting, now).rows, meeting.id) == {}
  {
    var b := EndedAndEvicted(db, meeting, now);
    forall k ensures OpenRows(b.rows, k) <= OpenRows(db.rows, k) {
    }
    CapKept(db, b);
  }

  lemma EvictionHistory(db: Db, m: MeetingId, t: int, now: int)
    requires Invariant(db, t) && t <= now && m in db.meetings
    requires db.meetings[m].status == Live || db.meetings[m].status == Ended
    ensures MeetingsOk(EndedAndEvicted(db, db.meetings[m], now), now)
    ensures StatusDiscipline(db, EndedAndEvicted(db, db.meetings[m], now))
    ensures HistoryKept(db, EndedAndEvicted(db, db.meetings[m], now))
  {
    hide CapHolds;
  }

  lemma EvictionBinds(db: Db, meeting: Meeting, t: int, now: int)
    requires RowsOk(db, t)
    ensures BindsNothing(db, EndedAndEvicted(db, meeting, now))
  {
  }

  /** Ending stamps and evicts in one transaction, from a live meeting or again from an ended one. */
  lemma EvictionSteps(db: Db, m: MeetingId, t: int, now: int)
    requires Invariant(db, t) && t <= now
    requires m in db.meetings && (db.meetings[m].status == Live || db.meetings[m].status == Ended)
    ensures Move(db, EndedAndEvicted(db, db.meetings[m], now), {}, now)
    ensures OpenRows(EndedAndEvicted(db, db.meetings[m], now).rows, m) == {}
  {
    hide MeetingsOk;
    hide RowsOk;
    hide CapHolds;
    hide StatusDiscipline;
    hide HistoryKept;
    hide BindsNothing;
    MeetingFacts(db, m, t);
    EvictionRows(db, m, t, now);
    EvictionCap(db, db.meetings[m], now);
    EvictionHistory(db, m, t, now);
    EvictionBinds(db, db.meetings[m], t, now);
  }

  /** The meeting is over at `now`, everyone in it left at that very stamp, and nothing else has changed. */
  ghost predicate Emptied(a: Db, b: Db, m: MeetingId, now: int) {
    && m in b.meetings && b.meetings[m].status == Ended && b.meetings[m].endedAt == Some(now)
    && (forall k :: k in a.meetings && k != m ==> k in b.meetings && b.meetings[k] == a.meetings[k])
    && b.rows.Keys == a.rows.Keys
    && (forall r :: r in OpenRows(a.rows, m) ==> b.rows[r].leftAt == Some(now) && b.rows[r].connectionId.None?)
    && (forall r :: r in a.rows && r !in OpenRows(a.rows, m) ==> b.rows[r] == a.rows[r])
  }

  lemma EndSteps(db: Db, m: MeetingId, user: UserId, t: int, now: int)
    requires Invariant(db, t) && t <= now
    ensures Move(db, End(db, m, user, now).Or(db), {}, now)
    ensures End(db, m, user, now).Ok? <==> Hosts(db, m, user) && db.meetings[m].status == Live
    ensures End(db, m, user, now).Ok? ==> Emptied(db, End(db, m, user, now).value, m, now)
  {
    hide Move;
    hide Invariant;
    SkipSteps(db, t, now);
    if End(db, m, user, now).Ok? {
      MeetingFacts(db, m, t);
      EvictionSteps(db, m, t, now);
    }
  }

  /** A row opened below the cap, under the role its meeting prescribes. */
  lemma RowOpenRows(db: Db, p: Participant, now: int)
    requires RowsOk(db, now) && p.id !in db.rows && RowOk(db, p, now)
    ensures RowsOk(WithRow(db, p), now)
  {
    var b := WithRow(db, p);
    forall r | r in b.rows ensures b.rows[r].id == r && RowOk(b, b.rows[r], now) {
      if r != p.id {
        assert RowOk(db, db.rows[r], now);
      }
    }
  }

  lemma RowOpenCap(db: Db, p: Participant)
    requires CapHolds(db) && |OpenRows(db.rows, p.meetingId)| < MAX_MESH_PARTICIPANTS
    ensures CapHolds(WithRow(db, p))
  {
    var b := WithRow(db, p);
    forall m | m in b.meetings ensures |OpenRows(b.rows, m)| <= MAX_MESH_PARTICIPANTS {
      assert |OpenRows(db.rows, m)| <= MAX_MESH_PARTICIPANTS;
      SubsetIsNoLarger(OpenRows(b.rows, m), OpenRows(db.rows, m) + (if m == p.meetingId then {p.id} else {}));
    }
  }

  lemma RowOpenHistory(db: Db, p: Participant, now: int)
    requires MeetingsOk(db, now) && RowsOk(db, now) && p.id !in db.rows && p.connectionId.None?
    ensures MeetingsOk(WithRow(db, p), now)
    ensures StatusDiscipline(db, WithRow(db, p)) && HistoryKept(db, WithRow(db, p))
    ensures BindsNothing(db, WithRow(db, p))
  {
  }

  lemma RowOpenSteps(db: Db, p: Participant, now: int)
    requires Invariant(db, now) && p.id !in db.rows && RowOk(db, p, now) && p.connectionId.None?
    requires |OpenRows(db.rows, p.meetingId)| < MAX_MESH_PARTICIPANTS
    ensures Move(db, WithRow(db, p), {p.id}, now)
  {
    hide MeetingsOk;
    hide RowsOk;
    hide CapHolds;
    hide StatusDiscipline;
    hide HistoryKept;
    hide BindsNothing;
    hide OpenRows;
    RowOpenRows(db, p, now);
    RowOpenCap(db, p);
    RowOpenHistory(db, p, now);
  }

  lemma MovesCompose(a: Db, b: Db, c: Db, minted: set<nat>, now: int)
    requires Move(a, b, {}, now) && Move(b, c, minted, now)
    requires a.meetings == b.meetings || b.meetings == c.meetings
    ensures Move(a, c, minted, now)
  {
    forall r | r in a.rows ensures r in c.rows && RowKept(a.rows[r], c.rows[r]) {
      assert RowKept(a.rows[r], b.rows[r]) && RowKept(b.rows[r], c.rows[r]);
    }
  }

  /** The meeting as a joiner leaves it: a host finding it scheduled starts it. */
  function JoinStarted(db: Db, m: MeetingId, isHost: bool, now: int): Db
    requires m in db.meetings
  {
    if isHost && db.meetings[m].status != Live
    then WithMeeting(db, db.meetings[m].(status := Live, startedAt := Some(now), endedAt := None))
    else db
  }

  lemma JoinStartSteps(db: Db, m: MeetingId, isHost: bool, t: int, now: int)
    requires Invariant(db, t) && t <= now && m in db.meetings && !Over(db.meetings[m])
    ensures Move(db, JoinStarted(db, m, isHost, now), {}, now)
    ensures Invariant(JoinStarted(db, m, isHost, now), now)
    ensures JoinStarted(db, m, isHost, now).rows == db.rows
    ensures isHost ==> JoinStarted(db, m, isHost, now).meetings[m].status == Live
  {
    hide Invariant;
    hide StatusDiscipline;
    hide HistoryKept;
    hide BindsNothing;
    MeetingFacts(db, m, t);
    if JoinStarted(db, m, isHost, now) != db {
      MeetingWriteSteps(db, db.meetings[m].(status := Live, startedAt := Some(now), endedAt := None), t, now);
    } else {
      SkipSteps(db, t, now);
    }
  }

  function JoinRow(db: Db, id: RowId, m: MeetingId, user: UserId, flags: Flags, now: int): Participant
    requires m in db.meetings
  {
    Participant(id, m, user, if db.meetings[m].hostId == user then Host else Guest, flags, now, None, None)
  }

  lemma JoinOpenSteps(db: Db, id: RowId, m: MeetingId, user: UserId, flags: Flags, t: int, now: int)
    requires Invariant(db, t) && t <= now && id !in db.rows
    requires m in db.meetings && !Over(db.meetings[m]) && |OpenRows(db.rows, m)| < MAX_MESH_PARTICIPANTS
    ensures Move(db,
        WithRow(JoinStarted(db, m, db.meetings[m].hostId == user, now), JoinRow(db, id, m, user, flags, now)),
                 {id}, now)
  {
    hide Move;
    hide Invariant;
    hide OpenRows;
    var isHost := db.meetings[m].hostId == user;
    var started := JoinStarted(db, m, isHost, now);
    var p := JoinRow(db, id, m, user, flags, now);
    JoinStartSteps(db, m, isHost, t, now);
    RowOpenSteps(started, p, now);
    MovesCompose(db, started, WithRow(started, p), {id}, now);
  }

  /** One fresh open row, a host row exactly for the owner; only the owner's arrival starts a scheduled meeting. */
  ghost predicate Entered(a: Db, b: Db, id: RowId, m: MeetingId, user: UserId) {
    && m in a.meetings && id in b.rows && b.rows == a.rows[id := b.rows[id]]
    && b.rows[id].meetingId == m && b.rows[id].userId == user
    && b.rows[id].leftAt.None? && b.rows[id].connectionId.None?
    && (b.rows[id].role == Host <==> user == a.meetings[m].hostId)
    && (forall k :: k in a.meetings && k != m ==> k in b.meetings && b.meetings[k] == a.meetings[k])
    && m in b.meetings
    && (b.meetings[m] != a.meetings[m] ==>
          a.meetings[m].status == Scheduled && user == a.meetings[m].hostId && b.meetings[m].status == Live)
  }

  /** The join path writes `status` without the transition table, and still only along an edge. */
  lemma JoinSteps(db: Db, id: RowId, m: MeetingId, user: UserId, ok: bool, flags: Flags, t: int, now: int)
    requires Invariant(db, t) && t <= now && id !in db.rows
    ensures Move(db, Join(db, id, m, user, ok, flags, now).Or(db), {id}, now)
    ensures Join(db, id, m, user, ok, flags, now).Ok? ==>
        Entered(db, Join(db, id, m, user, ok, flags, now).value, id, m, user)
  {
    hide Move;
    hide Invariant;
    hide OpenRows;
    SkipSteps(db, t, now);
    MintMore(db, db, {id}, now);
    if Join(db, id, m, user, ok, flags, now).Ok? {
      MeetingFacts(db, m, t);
      JoinOpenSteps(db, id, m, user, flags, t, now);
    }
  }

  /** The socket path ends a meeting on the strength of a host row alone; the row proves the edge. */
  lemma HostEndSteps(db: Db, actor: RowId, t: int, now: int)
    requires Invariant(db, t) && t <= now && actor in db.rows
    ensures Move(db, HostEnd(db, db.rows[actor], now).Or(db), {}, now)
    ensures HostEnd(db, db.rows[actor], now).Ok? ==>
              db.meetings[db.rows[actor].meetingId].status in {Live, Ended}
  {
    hide Move;
    hide Invariant;
    hide Evicted;
    RowFacts(db, actor, t);
    SkipSteps(db, t, now);
    if HostEnd(db, db.rows[actor], now).Ok? {
      EvictionSteps(db, db.rows[actor].meetingId, t, now);
    }
  }

  lemma MutedRowsOk(db: Db, ids: set<RowId>, t: int, now: int)
    requires RowsOk(db, t) && t <= now
    ensures RowsOk(db.(rows := Muted(db.rows, ids)), now)
  {
    var b := db.(rows := Muted(db.rows, ids));
    forall r | r in b.rows ensures b.rows[r].id == r && RowOk(b, b.rows[r], now) {
      assert RowOk(db, db.rows[r], t);
    }
  }

  lemma MutedCap(db: Db, ids: set<RowId>)
    requires CapHolds(db)
    ensures CapHolds(db.(rows := Muted(db.rows, ids)))
  {
    var b := db.(rows := Muted(db.rows, ids));
    forall m ensures OpenRows(b.rows, m) <= OpenRows(db.rows, m) {
    }
    CapKept(db, b);
  }

  lemma MutedHistory(db: Db, ids: set<RowId>, t: int, now: int)
    requires MeetingsOk(db, t) && RowsOk(db, t) && t <= now
    ensures MeetingsOk(db.(rows := Muted(db.rows, ids)), now)
    ensures StatusDiscipline(db, db.(rows := Muted(db.rows, ids)))
    ensures HistoryKept(db, db.(rows := Muted(db.rows, ids)))
    ensures BindsNothing(db, db.(rows := Muted(db.rows, ids)))
  {
  }

  lemma MuteSteps(db: Db, ids: set<RowId>, t: int, now: int)
    requires Invariant(db, t) && t <= now
    ensures Move(db, db.(rows := Muted(db.rows, ids)), {}, now)
  {
    hide MeetingsOk;
    hide RowsOk;
    hide CapHolds;
    hide StatusDiscipline;
    hide HistoryKept;
    hide BindsNothing;
    hide OpenRows;
    MutedRowsOk(db, ids, t, now);
    MutedCap(db, ids);
    MutedHistory(db, ids, t, now);
  }

  /** Everyone else present in the actor's meeting is muted, and nothing else has changed. */
  ghost predicate MutedBut(a: Db, b: Db, actor: RowId)
    requires actor in a.rows
  {
    && b.meetings == a.meetings && b.rows.Keys == a.rows.Keys
    && forall r :: r in a.rows ==>
         if r != actor && r in OpenRows(a.rows, a.rows[actor].meetingId)
         then b.rows[r] == a.rows[r].(flags := a.rows[r].flags.(muted := true))
         else b.rows[r] == a.rows[r]
  }

  lemma HostMuteAllSteps(db: Db, actor: RowId, t: int, now: int)
    requires Invariant(db, t) && t <= now && actor in db.rows
    ensures Move(db, HostMuteAll(db, db.rows[actor]).Or(db), {}, now)
    ensures HostMuteAll(db, db.rows[actor]).Ok? ==> MutedBut(db, HostMuteAll(db, db.rows[actor]).value, actor)
  {
    hide Move;
    hide Invariant;
    KeysAreIds(db, t);
    MuteSteps(db, Mutable(db, db.rows[actor]), t, now);
    SkipSteps(db, t, now);
  }

  /** The connect-time capacity check can never refuse: joining already kept the cap. */
  lemma ConnectNeverFindsRoomFull(db: Db, number: MeetingId, session: RowId, now: int)
    requires Invariant(db, now)
    ensures Authenticate(db, number, session).Ok? ==> RoomHasSpace(db, number)
  {
  }
}
