// Safety of the room protocol over whole runs, from the empty server.

module Guarantees {
  import opened Model
  import opened Lifecycle
  import LifecycleProofs
  import opened Protocol
  import opened Registry
  import opened Server
  import opened ServerProofs

  function Run(steps: seq<Step>): State {
    Exec(INIT, steps)
  }

  lemma RunStep(steps: seq<Step>, step: Step)
    ensures Run(steps + [step]) == Apply(Run(steps), step)
  {
    assert (steps + [step])[..|steps|] == steps;
  }

  // --- Status, stamps, cap -------------------------------------------------------------

  /** At every point of every run, the next step moves each meeting along an edge or not at all. */
  lemma StatusFollowsTransitions(steps: seq<Step>, step: Step)
    ensures LifecycleProofs.StatusDiscipline(Run(steps).db, Run(steps + [step]).db)
    ensures LifecycleProofs.HistoryKept(Run(steps).db, Run(steps + [step]).db)
  {
    hide Invariant;
    hide LifecycleProofs.Invariant;
    hide LifecycleProofs.StatusDiscipline;
    hide LifecycleProofs.HistoryKept;
    Reachable(steps);
    ApplyKeeps(Run(steps), step);
  }

  lemma StampsAlwaysAgree(steps: seq<Step>, m: MeetingId)
    requires m in Run(steps).db.meetings
    ensures var s := Run(steps); var meeting := s.db.meetings[m];
            && (meeting.endedAt.Some? <==> meeting.status == Ended)
            && (meeting.status == Live ==> meeting.startedAt.Some?)
            && (meeting.status == Ended ==> meeting.startedAt.Some?
                                            && meeting.startedAt.value <= meeting.endedAt.value
                                            && OpenRows(s.db.rows, m) == {})
  {
    Reachable(steps);
  }

  /** Nobody is ever refused at connect time for lack of room. */
  lemma MeshCapAlwaysHolds(steps: seq<Step>, number: MeetingId, session: RowId)
    ensures forall m :: m in Run(steps).db.meetings ==>
                          |OpenRows(Run(steps).db.rows, m)| <= MAX_MESH_PARTICIPANTS
    ensures Authenticate(Run(steps).db, number, session).Ok? ==>
              Run(steps).next in Run(steps + [Connect(number, session)]).sockets
  {
    Reachable(steps);
    LifecycleProofs.ConnectNeverFindsRoomFull(Run(steps).db, number, session, Run(steps).clock);
  }

  /** A closed row stays closed with its first stamp, however the run goes on. */
  lemma {:induction false} ClosingStampIsWrittenOnce(steps: seq<Step>, more: seq<Step>, r: RowId)
    requires r in Run(steps).db.rows && Run(steps).db.rows[r].leftAt.Some?
    ensures r in Run(steps + more).db.rows
    ensures Run(steps + more).db.rows[r].leftAt == Run(steps).db.rows[r].leftAt
  {
    if more == [] {
      assert steps + more == steps;
    } else {
      var n := |more| - 1;
      ClosingStampIsWrittenOnce(steps, more[..n], r);
      assert steps + more == steps + more[..n] + [more[n]];
      StatusFollowsTransitions(steps + more[..n], more[n]);
      assert LifecycleProofs.RowKept(Run(steps + more[..n]).db.rows[r], Run(steps + more).db.rows[r]);
    }
  }

  // --- Stale sockets never evict -----------------------------------------------------------

  /** The socket the last successful connect of row `r` was given, read off the history alone. */
  function LastBound(steps: seq<Step>, r: RowId): Option<ConnId> {
    if steps == [] then None
    else
      var n := |steps| - 1;
      var before := Run(steps[..n]);
      if steps[n].Connect? && steps[n].session == r && before.next in Apply(before, steps[n]).sockets
      then Some(before.next)
      else LastBound(steps[..n], r)
  }

  lemma ConnectBinds(s: State, number: MeetingId, session: RowId, r: RowId)
    requires Invariant(s) && r in s.db.rows
    ensures var t := ConnectSocket(s, number, session);
            && t.db.rows.Keys == s.db.rows.Keys
            && t.db.rows[r].leftAt == s.db.rows[r].leftAt
            && (r == session && s.next in t.sockets ==>
                t.db.rows[r].connectionId == Some(s.next) && t.db.rows[r].leftAt.None?)
            && (r != session || s.next !in t.sockets ==> t.db.rows[r].connectionId == s.db.rows[r].connectionId)
  {
    hide LifecycleProofs.Invariant;
    InvariantFacts(s);
  }

  lemma CalmKeepsSocket(a: Db, b: Db, r: RowId, now: int)
    requires LifecycleProofs.Calm(a, b, now) && r in b.rows && b.rows[r].leftAt.None?
    ensures b.rows[r].connectionId == if r in a.rows then a.rows[r].connectionId else None
    ensures r in a.rows ==> a.rows[r].leftAt.None?
  {
    if r in a.rows {
      assert LifecycleProofs.RowKept(a.rows[r], b.rows[r]);
    }
  }

  lemma {:induction false} NeverBoundBeforeItExists(steps: seq<Step>, r: RowId)
    requires r !in Run(steps).db.rows
    ensures LastBound(steps, r).None?
  {
    if steps != [] {
      var n := |steps| - 1;
      var s := Run(steps[..n]);
      assert steps == steps[..n] + [steps[n]];
      StatusFollowsTransitions(steps[..n], steps[n]);
      Reachable(steps[..n]);
      assert s.next !in s.sockets;
      NeverBoundBeforeItExists(steps[..n], r);
    }
  }

  /** An open row names exactly the last socket that connected for it; a closed row names none. */
  lemma {:induction false} BindingIsLastSocket(steps: seq<Step>, r: RowId)
    requires r in Run(steps).db.rows
    ensures Run(steps).db.rows[r].connectionId
         == if Run(steps).db.rows[r].leftAt.None? then LastBound(steps, r) else None
  {
    Reachable(steps);
    if Run(steps).db.rows[r].leftAt.Some? {
    } else if steps != [] {
      BindingStep(steps[..|steps| - 1], steps[|steps| - 1], r);
      assert steps == steps[..|steps| - 1] + [steps[|steps| - 1]];
      if r in Run(steps[..|steps| - 1]).db.rows {
        BindingIsLastSocket(steps[..|steps| - 1], r);
      } else {
        NeverBoundBeforeItExists(steps[..|steps| - 1], r);
      }
    }
  }

  /** How one step carries the binding of a row it leaves open. */
  lemma BindingStep(steps: seq<Step>, step: Step, r: RowId)
    requires r in Run(steps + [step]).db.rows && Run(steps + [step]).db.rows[r].leftAt.None?
    ensures r in Run(steps).db.rows ==> Run(steps).db.rows[r].leftAt.None?
    ensures var s := Run(steps); var t := Run(steps + [step]);
            t.db.rows[r].connectionId
            == if step.Connect? && step.session == r && s.next in t.sockets then Some(s.next)
               else if r in s.db.rows then s.db.rows[r].connectionId else None
  {
    hide LifecycleProofs.Invariant;
    hide LifecycleProofs.Calm;
    hide LifecycleProofs.Step;
    hide Invariant;
    var s := Run(steps);
    Reachable(steps);
    ApplyKeeps(s, step);
    if step.Connect? {

      ConnectAddsNoRow(s, step.number, step.session);
      ConnectBinds(s, step.number, step.session, r);
    } else {
      CalmKeepsSocket(s.db, Apply(s, step).db, r, Apply(s, step).clock);
    }
  }

  lemma NextIsUnused(s: State)
    requires Invariant(s)
    ensures s.next !in s.sockets
  {
  }

  lemma ConnectAddsNoRow(s: State, number: MeetingId, session: RowId)
    requires Invariant(s)
    ensures ConnectSocket(s, number, session).db.rows.Keys == s.db.rows.Keys
  {
    hide LifecycleProofs.Invariant;
    InvariantFacts(s);
  }

  /**
   * A teardown closes the row, and tells the room, exactly when its socket is the last one
   * the open row was given. Otherwise it leaves the tables and every log alone.
   */
  lemma {:induction false} TeardownEvictsOnlyTheLastSocket(steps: seq<Step>, c: ConnId)
    requires c in Run(steps).running
    ensures var s := Run(steps); var t := Run(steps + [Teardown(c)]);
            && c in s.sockets
            && var p := s.sockets[c].participantId;
            && p in s.db.rows && p in t.db.rows
            && if s.db.rows[p].leftAt.None? && LastBound(steps, p) == Some(c)
               then t.db.rows[p].leftAt == Some(s.clock)
                    && t.wires == Delivered(s.wires, Ids(t.Room(s.sockets[c].meetingId)), PeerLeft(p))
               else t.db == s.db && t.wires == s.wires
  {
    hide Invariant;
    hide TeardownSocket;
    Reachable(steps);
    TeardownEffect(Run(steps), c);
    BindingIsLastSocket(steps, Run(steps).sockets[c].participantId);
  }

  lemma TeardownEffect(s: State, c: ConnId)
    requires Invariant(s) && c in s.running
    ensures var t := Apply(s, Teardown(c));
            && c in s.sockets
            && var p := s.sockets[c].participantId;
            && p in s.db.rows && p in t.db.rows
            && if s.db.rows[p].connectionId == Some(c)
               then s.db.rows[p].leftAt.None? && t.db.rows[p].leftAt == Some(s.clock)
                    && t.wires == Delivered(s.wires, Ids(t.Room(s.sockets[c].meetingId)), PeerLeft(p))
               else t.db == s.db && t.wires == s.wires
  {
    hide LifecycleProofs.Invariant;
    hide RoomsOk;
    hide BoundOk;
    InvariantFacts(s);
    var p := s.sockets[c].participantId;
    if s.db.rows[p].connectionId.Some? { OwnedRowIsOpen(s, p); }
    var t := Apply(s, Teardown(c));
    assert Recipients(t.Room(s.sockets[c].meetingId), None) == Ids(t.Room(s.sockets[c].meetingId));
  }

  lemma OwnedRowIsOpen(s: State, r: RowId)
    requires Invariant(s) && r in s.db.rows && s.db.rows[r].connectionId.Some?
    ensures s.db.rows[r].leftAt.None?
  {
  }

  /** The step is a teardown that announces the departure of its row. */
  predicate Departs(s: State, step: Step) {
    && step.Teardown? && step.c in s.running && step.c in s.sockets
    && Release(s.db, s.sockets[step.c].participantId, step.c, s.clock).Some?
  }

  /** The rows whose departure a teardown announced, in order. */
  function Departures(steps: seq<Step>): seq<RowId> {
    if steps == [] then []
    else
      var n := |steps| - 1;
      var s := Run(steps[..n]);
      Departures(steps[..n]) + if Departs(s, steps[n]) then [s.sockets[steps[n].c].participantId] else []
  }

  /** A departure is announced for a row that was open, and the announcement closes it. */
  lemma DepartureClosesAnOpenRow(steps: seq<Step>, step: Step)
    requires Departs(Run(steps), step)
    ensures var s := Run(steps); var p := s.sockets[step.c].participantId;
            && p in s.db.rows && s.db.rows[p].leftAt.None?
            && p in Run(steps + [step]).db.rows && Run(steps + [step]).db.rows[p].leftAt.Some?
  {
    hide Invariant;
    hide TeardownSocket;
    Reachable(steps);
    TeardownEffect(Run(steps), step.c);
  }

  predicate Distinct(s: seq<RowId>) {
    forall i, j :: 0 <= i < j < |s| ==> s[i] != s[j]
  }

  /** Each row departs at most once, and every announced row is closed for good. */
  lemma {:induction false} EachRowDepartsAtMostOnce(steps: seq<Step>)
    ensures Distinct(Departures(steps))
    ensures forall r :: r in Departures(steps) ==> r in Run(steps).db.rows && Run(steps).db.rows[r].leftAt.Some?
  {
    hide Departs;
    hide Apply;
    if steps != [] {
      var n := |steps| - 1;
      var s := Run(steps[..n]);
      EachRowDepartsAtMostOnce(steps[..n]);
      assert steps == steps[..n] + [steps[n]];
      forall r | r in Departures(steps[..n]) ensures r in Run(steps).db.rows && Run(steps).db.rows[r].leftAt.Some? {
        ClosingStampIsWrittenOnce(steps[..n], [steps[n]], r);
      }
      if Departs(s, steps[n]) {
        DepartureClosesAnOpenRow(steps[..n], steps[n]);
      }
    }
  }

  /** Once a row is closed by anything else (removal, meeting end, REST), no teardown announces it. */
  lemma {:induction false} ClosedRowNeverDeparts(steps: seq<Step>, more: seq<Step>, r: RowId)
    requires r in Run(steps).db.rows && Run(steps).db.rows[r].leftAt.Some?
    ensures r in Departures(steps + more) ==> r in Departures(steps)
  {
    hide Departs;
    hide Apply;
    if more == [] {
      assert steps + more == steps;
    } else {
      var n := |more| - 1;
      var so := steps + more[..n];
      ClosedRowNeverDeparts(steps, more[..n], r);
      ClosingStampIsWrittenOnce(steps, more[..n], r);
      assert (steps + more)[..|steps + more| - 1] == so;
      var s := Run(so);
      if Departs(s, more[n]) {
        DepartureClosesAnOpenRow(so, more[n]);
      }
    }
  }
}
