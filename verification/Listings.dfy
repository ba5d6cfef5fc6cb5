// What is on a host's listings, and which steps of the server put it there or take it away.

module Listings {
  import opened Model
  import Lifecycle
  import LifecycleProofs
  import opened Protocol
  import opened Server
  import opened ServerProofs
  import opened Guarantees
  import opened Pagination
  import opened Columns
  import MeetingPages

  /** Some request of the listing finds the meeting on its page. */
  ghost predicate OnSomePage(table: Table, host: UserId, f: Filter, now: int, m: MeetingId) {
    exists limit, cursor ::
      && ListForHost(table, host, f, now, limit, cursor).Listed?
      && exists x :: x in ListForHost(table, host, f, now, limit, cursor).page.items && x.id == m
  }

  predicate OnDay(start: Option<int>, day: int) {
    start.Some? && day <= start.value < day + 86_400_000_000
  }

  /** What each listing is for. */
  predicate Belongs(f: Filter, meeting: Meeting, now: int) {
    match f
    case Upcoming =>
      && (meeting.status == Scheduled || meeting.status == Live)
      && meeting.scheduledStart.Some? && now <= meeting.scheduledStart.value
    case Recent => meeting.status == Ended
    case Day(Date(day)) => meeting.status != Cancelled && OnDay(meeting.scheduledStart, day)
    case Day(_) => false
    case All => true
    case Unrecognised => false
  }

  lemma PagesListWhatBelongs(table: Table, host: UserId, f: Filter, now: int, limit: int,
                             cursor: Option<MeetingId>, x: Meeting)
    requires Keyed(table) && ListForHost(table, host, f, now, limit, cursor).Listed?
    requires x in ListForHost(table, host, f, now, limit, cursor).page.items
    ensures x.id in table && table[x.id] == x && x.hostId == host && Belongs(f, x, now)
  {
    var after := if cursor.Some? then Some(table[cursor.value]) else None;
    RowsHold(table, f, host, now, after);
    hide Pagination.Rows;
    hide Sorted;
    hide Follows;
    assert x in Pagination.Rows(table, f, host, now, after);
  }

  lemma WhatBelongsIsOnAPage(table: Table, host: UserId, f: Filter, now: int, m: MeetingId)
    requires Keyed(table) && EndedIsStamped(table) && Refusing(f).None?
    requires m in table && table[m].hostId == host && Belongs(f, table[m], now)
    ensures OnSomePage(table, host, f, now, m)
  {
    var rows := Pagination.Rows(table, f, host, now, None);
    RowsHold(table, f, host, now, None);
    assert Selected(table, f, host, now, None, m);
    hide Pagination.Rows;
    hide Sorted;
    hide Matches;
    hide Belongs;
    hide EndedIsStamped;
    hide ListForHost;
    assert table[m] in rows;
    var i :| 0 <= i < |rows| && rows[i] == table[m];
    var cursor := ResumeAt(rows, i);
    PageAt(host, f, View(table, now, 1), i);
    var items := ListForHost(table, host, f, now, 1, cursor).page.items;
    assert items[0] == rows[i];
    assert items[0] in items && items[0].id == m;
  }

  /** A listing shows, over its pages, the host's own meetings that belong on it, and nobody else's. */
  lemma ListedIff(table: Table, host: UserId, f: Filter, now: int, m: MeetingId)
    requires Keyed(table) && EndedIsStamped(table) && Refusing(f).None?
    ensures OnSomePage(table, host, f, now, m)
       <==> m in table && table[m].hostId == host && Belongs(f, table[m], now)
  {
    hide ListForHost;
    hide Belongs;
    hide Keyed;
    hide EndedIsStamped;
    if OnSomePage(table, host, f, now, m) {
      var limit, cursor :|
        && ListForHost(table, host, f, now, limit, cursor).Listed?
        && exists x :: x in ListForHost(table, host, f, now, limit, cursor).page.items && x.id == m;
      var x :| x in ListForHost(table, host, f, now, limit, cursor).page.items && x.id == m;
      PagesListWhatBelongs(table, host, f, now, limit, cursor, x);
    }
    if m in table && table[m].hostId == host && Belongs(f, table[m], now) {
      WhatBelongsIsOnAPage(table, host, f, now, m);
    }
  }

  // --- Along runs ---------------------------------------------------------------------------------------------

  /** The listing, asked for now. */
  ghost predicate Shown(s: State, host: UserId, f: Filter, m: MeetingId) {
    OnSomePage(s.db.meetings, host, f, s.clock, m)
  }

  predicate MayBeShown(s: State, host: UserId, f: Filter, m: MeetingId) {
    m in s.db.meetings && s.db.meetings[m].hostId == host && Belongs(f, s.db.meetings[m], s.clock)
  }

  lemma ShownIff(steps: seq<Step>, host: UserId, f: Filter, m: MeetingId)
    requires Refusing(f).None?
    ensures Shown(Run(steps), host, f, m) <==> MayBeShown(Run(steps), host, f, m)
  {
    hide Run;
    hide OnSomePage;
    hide Belongs;
    MeetingPages.EveryTableIsStamped(steps);
    ListedIff(Run(steps).db.meetings, host, f, Run(steps).clock, m);
  }

  /** What one step says of the listings: the meeting as the step leaves it, and the clock. */
  lemma ShownAfter(steps: seq<Step>, step: Step, host: UserId, f: Filter, m: MeetingId)
    requires Refusing(f).None?
    ensures var s, t := Run(steps), Run(steps + [step]);
            && (Shown(s, host, f, m) <==> MayBeShown(s, host, f, m))
            && (Shown(t, host, f, m) <==> MayBeShown(t, host, f, m))
            && MeetingsWritten(s, step, t) && s.next !in s.db.meetings
            && t.clock == (if step.Tick? then s.clock + step.elapsed else s.clock)
            && (m in s.db.meetings ==> LifecycleProofs.StampsOk(s.db.meetings[m], s.clock))
            && (Ends(s, step, m) ==> s.db.meetings[m].status in {Live, Ended})
  {
    hide MayBeShown;
    hide Shown;
    hide MeetingsWritten;
    ShownIff(steps, host, f, m);
    ShownIff(steps + [step], host, f, m);
    MeetingsOfEveryRun(steps, step);
    Reachable(steps);
    RunStep(steps, step);
    InvariantTies(Run(steps));
    ClockAfter(Run(steps), step);
    if Ends(Run(steps), step, m) { EndsWhatHasStarted(Run(steps), step, m); }
    hide Invariant;
    hide Run;
  }

  lemma ClockAfter(s: State, step: Step)
    ensures Apply(s, step).clock == if step.Tick? then s.clock + step.elapsed else s.clock
  {
    hide Handle;
    hide ConnectSocket;
    hide TeardownSocket;
    if step.Connect? || step.Receive? || step.Teardown? { ClockHeld(s, step); hide Apply; }
  }

  /** A new meeting of the host. */
  predicate CreatedFor(s: State, step: Step, host: UserId, m: MeetingId) {
    Creates(s, step) && m == s.next && step.host == host
  }

  /**
   * A meeting leaves its host's upcoming listing when it is cancelled, when it ends, and when the clock
   * passes its start, and never otherwise: neither when it starts nor when its host comes early. It comes
   * onto the listing when it is created with a start, rescheduled, or started again before its start.
   */
  lemma UpcomingChangesIff(steps: seq<Step>, step: Step, host: UserId, m: MeetingId)
    ensures var s, t := Run(steps), Run(steps + [step]);
            if Shown(s, host, Upcoming, m) then
              && m in s.db.meetings && s.db.meetings[m].scheduledStart.Some?
              && (!Shown(t, host, Upcoming, m) <==>
                    Cancels(s, step, m) || Ends(s, step, m)
                    || (step.Tick? && s.db.meetings[m].scheduledStart.value < s.clock + step.elapsed))
            else
              Shown(t, host, Upcoming, m) <==>
                || (CreatedFor(s, step, host, m) && step.start.Some?)
                || (OwnedBy(s, m, host)
                    && (Edits(s, step, m)
                        || (Starts(s, step, m) && s.db.meetings[m].scheduledStart.Some?
                            && s.clock <= s.db.meetings[m].scheduledStart.value)))
  {
    hide Run;
    hide Shown;
    ShownAfter(steps, step, host, Upcoming, m);
    if m in Run(steps).db.meetings {
      assert MeetingWritten(Run(steps), step, Run(steps + [step]), m);
    }
  }

  /** A day's listing loses a meeting when it is cancelled or moved to another day, and gains one accordingly. */
  lemma DayChangesIff(steps: seq<Step>, step: Step, host: UserId, day: int, m: MeetingId)
    ensures var s, t, f := Run(steps), Run(steps + [step]), Day(Date(day));
            if Shown(s, host, f, m) then
              !Shown(t, host, f, m) <==> Cancels(s, step, m) || (Edits(s, step, m) && !OnDay(step.start, day))
            else
              Shown(t, host, f, m) <==>
                || (CreatedFor(s, step, host, m) && OnDay(step.start, day))
                || (OwnedBy(s, m, host) && Edits(s, step, m) && OnDay(step.start, day))
  {
    hide Run;
    hide Shown;
    ShownAfter(steps, step, host, Day(Date(day)), m);
    if m in Run(steps).db.meetings {
      assert MeetingWritten(Run(steps), step, Run(steps + [step]), m);
    }
  }

  /** The recent listing gains a meeting of the host when it ends, and loses it when it starts again. */
  lemma RecentChangesIff(steps: seq<Step>, step: Step, host: UserId, m: MeetingId)
    ensures var s, t := Run(steps), Run(steps + [step]);
            if Shown(s, host, Recent, m) then !Shown(t, host, Recent, m) <==> Starts(s, step, m)
            else Shown(t, host, Recent, m) <==> OwnedBy(s, m, host) && Ends(s, step, m)
  {
    hide Run;
    hide Shown;
    ShownAfter(steps, step, host, Recent, m);
    if m in Run(steps).db.meetings {
      assert MeetingWritten(Run(steps), step, Run(steps + [step]), m);
    }
  }

  /** The listing of all meetings gains those created and loses none. */
  lemma AllChangesIff(steps: seq<Step>, step: Step, host: UserId, m: MeetingId)
    ensures var s, t := Run(steps), Run(steps + [step]);
            Shown(t, host, All, m) <==> Shown(s, host, All, m) || CreatedFor(s, step, host, m)
  {
    hide Run;
    hide Shown;
    ShownAfter(steps, step, host, All, m);
    if m in Run(steps).db.meetings {
      assert MeetingWritten(Run(steps), step, Run(steps + [step]), m);
    }
  }

  /** Nobody else's meeting is ever listed. */
  lemma OnlyOwnMeetingsAreShown(steps: seq<Step>, host: UserId, f: Filter, m: MeetingId)
    requires Refusing(f).None? && Shown(Run(steps), host, f, m)
    ensures m in Run(steps).db.meetings && Run(steps).db.meetings[m].hostId == host
  {
    hide Run;
    hide Shown;
    ShownIff(steps, host, f, m);
  }
}
