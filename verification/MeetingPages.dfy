// The listing over the tables a run of the server goes through.
module MeetingPages {
  import opened Model
  import Lifecycle
  import LifecycleProofs
  import opened Protocol
  import opened Registry
  import opened Server
  import opened ServerProofs
  import opened Guarantees
  import opened Pagination
  import opened Columns

  /** In every reachable table, an ended meeting has the stamp the recent listing sorts by. */
  lemma EveryTableIsStamped(steps: seq<Step>)
    ensures Keyed(Run(steps).db.meetings) && EndedIsStamped(Run(steps).db.meetings)
  {
    Reachable(steps);
  }

  /** A meeting stays in the table, with its owner and its creation time. */
  lemma {:induction false} MeetingsStay(steps: seq<Step>, more: seq<Step>, m: MeetingId)
    requires m in Run(steps).db.meetings
    ensures m in Run(steps + more).db.meetings
    ensures Run(steps + more).db.meetings[m].hostId == Run(steps).db.meetings[m].hostId
    ensures Run(steps + more).db.meetings[m].createdAt == Run(steps).db.meetings[m].createdAt
  {
    if more == [] {
      assert steps + more == steps;
    } else {
      var n := |more| - 1;
      MeetingsStay(steps, more[..n], m);
      assert steps + more == steps + more[..n] + [more[n]];
      StatusFollowsTransitions(steps + more[..n], more[n]);
    }
  }

  /** Each request finds the table as it is at a later point of the run. */
  ghost predicate AlongRun(steps: seq<Step>, cuts: seq<nat>, views: seq<View>) {
    && |cuts| == |views|
    && (forall k :: 0 <= k < |cuts| ==> cuts[k] <= |steps| && views[k].table == Run(steps[..cuts[k]]).db.meetings)
    && (forall i, k :: 0 <= i < k < |cuts| ==> cuts[i] <= cuts[k])
  }

  lemma LaterTable(steps: seq<Step>, i: nat, k: nat, m: MeetingId)
    requires i <= k <= |steps| && m in Run(steps[..i]).db.meetings
    ensures m in Run(steps[..k]).db.meetings
    ensures Run(steps[..k]).db.meetings[m].hostId == Run(steps[..i]).db.meetings[m].hostId
    ensures Run(steps[..k]).db.meetings[m].createdAt == Run(steps[..i]).db.meetings[m].createdAt
  {
    assert steps[..k] == steps[..i] + steps[i..k];
    MeetingsStay(steps[..i], steps[i..k], m);
  }

  lemma AlongRunTablesOk(steps: seq<Step>, cuts: seq<nat>, views: seq<View>)
    requires AlongRun(steps, cuts, views)
    ensures TablesOk(views)
  {
    forall k | 0 <= k < |views| ensures Keyed(views[k].table) && EndedIsStamped(views[k].table) {
      EveryTableIsStamped(steps[..cuts[k]]);
    }
  }

  /** Creation times do not change, so in the listing of all meetings no anchor is ever lost. */
  lemma {:induction false} AnchorsOfAllHold(host: UserId, steps: seq<Step>, cuts: seq<nat>, views: seq<View>,
                                            cursor: Option<MeetingId>)
    requires AlongRun(steps, cuts, views)
    ensures AnchorsHold(host, All, cursor, views)
    decreases |views|
  {
    if views != [] && Request(host, All, views[0], cursor).Listed? {
      var page := Request(host, All, views[0], cursor).page;
      AlongRunTablesOk(steps, cuts, views);
      hide Request;
      hide Keyed;
      hide EndedIsStamped;
      PageHolds(host, All, views[0], cursor);
      if page.nextCursor.Some? && |views| > 1 {
        assert page.items[|page.items| - 1] in page.items;
        LaterTable(steps, cuts[0], cuts[1], page.nextCursor.value);
        AnchorsOfAllHold(host, steps, cuts[1..], views[1..], page.nextCursor);
      }
    }
  }

  // --- What later steps may do to a key --------------------------------------------------------------

  function KeyIn(f: Filter, table: Table, m: MeetingId): Option<int> {
    if m in table then Key(f, table[m]) else None
  }

  /** A step that writes the key of a meeting clears it or sets it to the present. */
  predicate KeyWritten(f: Filter, before: Table, after: Table, m: MeetingId, now: int) {
    KeyIn(f, after, m) == KeyIn(f, before, m) || KeyIn(f, after, m) == None || KeyIn(f, after, m) == Some(now)
  }

  predicate ByStamp(f: Filter) {
    f == All || f == Recent
  }

  lemma StepWritesKeys(s: State, step: Step, f: Filter, m: MeetingId)
    requires Invariant(s) && ByStamp(f)
    ensures KeyWritten(f, s.db.meetings, Apply(s, step).db.meetings, m, s.clock)
  {
    hide Invariant;
    hide Apply;
    hide Starts;
    hide Ends;
    hide Creates;
    StepWritesMeetings(s, step);
    assert m in s.db.meetings ==> MeetingWritten(s, step, Apply(s, step), m);
  }

  lemma ClockGoesOn(s: State, step: Step)
    requires Invariant(s)
    ensures s.clock <= Apply(s, step).clock
  {
    hide Invariant;
    hide Handle;
    hide ConnectSocket;
    hide TeardownSocket;
    if step.Connect? || step.Receive? || step.Teardown? { ClockHeld(s, step); hide Apply; }
  }

  /** Between two points of a run a key stays, goes, or becomes no older than the first point. */
  lemma {:induction false} KeysMoveForward(steps: seq<Step>, more: seq<Step>, f: Filter, m: MeetingId)
    requires ByStamp(f)
    ensures Run(steps).clock <= Run(steps + more).clock
    ensures var k := KeyIn(f, Run(steps + more).db.meetings, m);
            k == KeyIn(f, Run(steps).db.meetings, m) || k == None || k.value >= Run(steps).clock
  {
    hide Apply;
    hide Key;
    hide Invariant;
    if more == [] {
      assert steps + more == steps;
    } else {
      var n := |more| - 1;
      KeysMoveForward(steps, more[..n], f, m);
      assert steps + more == steps + more[..n] + [more[n]];
      Reachable(steps + more[..n]);
      StepWritesKeys(Run(steps + more[..n]), more[n], f, m);
      ClockGoesOn(Run(steps + more[..n]), more[n]);
    }
  }

  lemma KeysAreOld(steps: seq<Step>, f: Filter, m: MeetingId)
    requires ByStamp(f)
    ensures var k := KeyIn(f, Run(steps).db.meetings, m); k.Some? ==> k.value <= Run(steps).clock
  {
    Reachable(steps);
  }

  /** A host's meetings. */
  function Hosted(host: UserId, table: Table): Table {
    map id | id in table && table[id].hostId == host :: table[id]
  }

  /**
   * No tie across the first request: a key some meeting of the host already had then is later found
   * with that meeting only. The order of ids says nothing about which of two was created first, so
   * a tie could put a newer row behind an older anchor.
   */
  ghost predicate NoTies(host: UserId, f: Filter, views: seq<View>) {
    forall k, id, a ::
      0 <= k < |views| && id in views[k].table && views[k].table[id].hostId == host
      && a in Hosted(host, views[0].table) && Key(f, views[0].table[a]).Some?
      && Key(f, views[k].table[id]) == Key(f, views[0].table[a])
      ==> KeyIn(f, views[0].table, id) == Key(f, views[k].table[id])
  }

  /** Along a run, whatever is listed behind an anchor of the first view was there under the same key. */
  lemma RunsBringNothingNew(host: UserId, f: Filter, steps: seq<Step>, cuts: seq<nat>, views: seq<View>)
    requires ByStamp(f) && views != [] && AlongRun(steps, cuts, views) && NoTies(host, f, views)
    ensures NothingNewAhead(host, f, Hosted(host, views[0].table), views)
  {
    hide Key;
    hide Run;
    var base := Hosted(host, views[0].table);
    forall k, id, a | 0 <= k < |views| && id in views[k].table && Matches(f, host, views[k].now, views[k].table[id])
                      && a in base && Key(f, base[a]).Some? && Follows(f, base[a], views[k].table[id])
      ensures SameKey(f, base, views[k].table, id)
    {
      assert steps[..cuts[k]] == steps[..cuts[0]] + steps[cuts[0]..cuts[k]];
      KeysMoveForward(steps[..cuts[0]], steps[cuts[0]..cuts[k]], f, id);
      KeysAreOld(steps[..cuts[0]], f, a);

      assert KeyIn(f, views[0].table, id) == Key(f, views[k].table[id]);
      LaterTable(steps, cuts[0], cuts[k], id);
    }
  }

  /**
   * However the server runs on, a walk by stamps whose anchors keep their keys ends within one request
   * more than the host had meetings at the first: what is created, ended or re-stamped since sorts
   * before the cursor.
   */
  lemma {:induction false} WalkAlongRunEnds(host: UserId, f: Filter, steps: seq<Step>, cuts: seq<nat>, views: seq<View>)
    requires ByStamp(f) && views != [] && AlongRun(steps, cuts, views) && NoTies(host, f, views)
    requires AnchorsHold(host, f, None, views)
    requires |views| > |Hosted(host, views[0].table)|
    ensures Finishes(host, f, None, views)
  {
    hide Key;
    hide AnchorsHold;
    hide NothingNewAhead;
    hide Follows;
    var base := Hosted(host, views[0].table);
    AlongRunTablesOk(steps, cuts, views);
    RunsBringNothingNew(host, f, steps, cuts, views);
    SubsetIsNoLarger(Ahead(f, base, None), base.Keys);
    WalkEnds(host, f, base, None, views);
  }

  // --- All meetings of a host ----------------------------------------------------------------------------

  /** Every row of the first view stays in the listing of all meetings, under its key. */
  lemma MeetingStaysListed(host: UserId, steps: seq<Step>, cuts: seq<nat>, views: seq<View>, m: MeetingId)
    requires views != [] && AlongRun(steps, cuts, views)
    requires m in views[0].table && views[0].table[m].hostId == host
    ensures Stays(host, All, m, Some(views[0].table[m].createdAt), views)
  {
    hide Run;
    forall k | 0 <= k < |views|
      ensures m in views[k].table && Matches(All, host, views[k].now, views[k].table[m])
      ensures Key(All, views[k].table[m]) == Some(views[0].table[m].createdAt)
    {
      LaterTable(steps, cuts[0], cuts[k], m);
    }
  }

  /**
   * However the server runs on between the pages, a walk over all meetings of a host visits every
   * meeting that existed at its first request exactly once, in order. Without ties, one request more
   * than there were meetings is enough to finish it.
   */
  lemma {:induction false} WalkOverAllMeetings(host: UserId, steps: seq<Step>,
      cuts: seq<nat>, views: seq<View>, m: MeetingId)
    requires AlongRun(steps, cuts, views)
    requires views != [] && m in views[0].table && views[0].table[m].hostId == host
    ensures Sorted(All, Visited(host, All, None, views))
    ensures Finishes(host, All, None, views) ==> VisitedOnce(Visited(host, All, None, views), m)
    ensures NoTies(host, All, views) && |views| > |Hosted(host, views[0].table)| ==> Finishes(host, All, None, views)
  {
    hide Visited;
    hide Finishes;
    hide Precedes;
    hide NoTies;
    hide AnchorsHold;
    hide Stays;
    hide Sorted;
    hide VisitedOnce;
    AlongRunTablesOk(steps, cuts, views);
    AnchorsOfAllHold(host, steps, cuts, views, None);
    WalkIsSorted(host, All, None, views);
    if NoTies(host, All, views) && |views| > |Hosted(host, views[0].table)| {
      WalkAlongRunEnds(host, All, steps, cuts, views);
    }
    if Finishes(host, All, None, views) {
      MeetingStaysListed(host, steps, cuts, views, m);
      StableRowIsVisitedOnce(host, All, views, m, Some(views[0].table[m].createdAt));
    }
  }

  // --- Ended meetings --------------------------------------------------------------------------------------

  /** The host starts the ended meeting again. */
  predicate Restarts(s: State, step: Step, m: MeetingId) {
    step.StartMeeting? && step.m == m && m in s.db.meetings && s.db.meetings[m].hostId == step.user
  }

  /** The owner's socket, still running, ends the ended meeting again, at another time. */
  predicate EndsAgain(s: State, step: Step, m: MeetingId) {
    step.Receive? && Ends(s, step, m) && s.db.meetings[m].endedAt != Some(s.clock)
  }

  predicate Touches(s: State, step: Step, m: MeetingId) {
    Restarts(s, step, m) || EndsAgain(s, step, m)
  }

  predicate EndedMeeting(table: Table, m: MeetingId) {
    m in table && table[m].status == Ended
  }

  /** The end stamp after a step, said of the state before it. */
  predicate StampIs(s: State, step: Step, t: Table, m: MeetingId)
    requires m in s.db.meetings
  {
    && m in t
    && t[m].endedAt == if Ends(s, step, m) then Some(s.clock)
                       else if Restarts(s, step, m) then None else s.db.meetings[m].endedAt
  }

  lemma MeetingIsMinted(s: State, m: MeetingId)
    requires Invariant(s) && m in s.db.meetings
    ensures m < s.next && LifecycleProofs.StampsOk(s.db.meetings[m], s.clock)
  {
  }

  /** Ending a meeting stamps it, restarting it clears the stamp, and nothing else moves it. */
  lemma EndStampIs(s: State, step: Step, m: MeetingId)
    requires Invariant(s) && m in s.db.meetings
    ensures StampIs(s, step, Apply(s, step).db.meetings, m)
  {
    hide Invariant;
    hide Apply;
    hide Ends;
    hide MeetingCreated;
    MeetingIsMinted(s, m);
    StepWritesMeetings(s, step);
    assert MeetingWritten(s, step, Apply(s, step), m);
    StartingIsNoEnding(s, step, m);
  }

  lemma StartingIsNoEnding(s: State, step: Step, m: MeetingId)
    ensures !((Starts(s, step, m) || Restarts(s, step, m)) && Ends(s, step, m))
  {
  }

  /** The end stamp has moved exactly if the step touches the meeting; only a restart unends it. */
  predicate MovedIffTouched(s: State, step: Step, t: Table, m: MeetingId)
    requires m in s.db.meetings
  {
    && m in t
    && (t[m].endedAt != s.db.meetings[m].endedAt <==> Touches(s, step, m))
    && (!Restarts(s, step, m) ==> EndedMeeting(t, m))
    && (Restarts(s, step, m) ==> t[m].endedAt.None?)
  }

  /** The sort key of an ended meeting moves by a restart or a second end, and by nothing else. */
  lemma EndStampMovesIff(s: State, step: Step, m: MeetingId)
    requires Invariant(s) && EndedMeeting(s.db.meetings, m)
    ensures MovedIffTouched(s, step, Apply(s, step).db.meetings, m)
  {
    hide Invariant;
    hide Apply;
    EndStampIs(s, step, m);
    ApplyKeeps(s, step);
    MeetingIsMinted(s, m);
    MeetingIsMinted(Apply(s, step), m);
  }

  /** No step of the run between the two points touches the ended meeting. */
  ghost predicate Untouched(steps: seq<Step>, i: nat, k: nat, m: MeetingId) {
    forall j :: i <= j < k && j < |steps| ==> !Touches(Run(steps[..j]), steps[j], m)
  }

  lemma {:induction false} UntouchedKeepsStamp(steps: seq<Step>, i: nat, k: nat, m: MeetingId)
    requires i <= k <= |steps| && Untouched(steps, i, k, m) && EndedMeeting(Run(steps[..i]).db.meetings, m)
    ensures EndedMeeting(Run(steps[..k]).db.meetings, m)
    ensures Run(steps[..k]).db.meetings[m].endedAt == Run(steps[..i]).db.meetings[m].endedAt
    ensures Run(steps[..k]).db.meetings[m].hostId == Run(steps[..i]).db.meetings[m].hostId
    decreases k - i
  {
    hide Apply;
    hide Touches;
    hide Invariant;
    if i < k {
      UntouchedKeepsStamp(steps, i, k - 1, m);
      assert steps[..k] == steps[..k - 1] + [steps[k - 1]];
      Reachable(steps[..k - 1]);
      EndStampMovesIff(Run(steps[..k - 1]), steps[k - 1], m);
      LaterTable(steps, i, k, m);
      assert !Touches(Run(steps[..k - 1]), steps[k - 1], m);
      TouchesCovers(Run(steps[..k - 1]), steps[k - 1], m);
    }
  }

  lemma TouchesCovers(s: State, step: Step, m: MeetingId)
    requires !Touches(s, step, m)
    ensures !Restarts(s, step, m)
  {
  }

  // --- Where anchors are found again -----------------------------------------------------------------------

  /** Step `j` of the run ends meeting `a`. */
  ghost predicate EndsAt(steps: seq<Step>, j: nat, a: MeetingId) {
    j < |steps| && Ends(Run(steps[..j]), steps[j], a)
  }

  /** The stamp at a later point is the earlier one, or none, or that of an end in between, and no end is later. */
  lemma {:induction false} StampLater(steps: seq<Step>, i: nat, k: nat, a: MeetingId)
    requires i <= k <= |steps| && a in Run(steps[..i]).db.meetings
    ensures a in Run(steps[..k]).db.meetings
    ensures var before, after := Run(steps[..i]).db.meetings[a].endedAt, Run(steps[..k]).db.meetings[a].endedAt;
            && (after == before || after == None
                || exists j :: i <= j < k && EndsAt(steps, j, a) && after == Some(Run(steps[..j]).clock))
            && (after.Some? ==>
                  forall j :: i <= j < k && EndsAt(steps, j, a) ==> Run(steps[..j]).clock <= after.value)
    decreases k - i
  {
    hide Apply;
    hide Invariant;
    hide Ends;
    hide Run;
    if i < k {
      StampLater(steps, i, k - 1, a);
      var s := Run(steps[..k - 1]);
      assert steps[..k] == steps[..k - 1] + [steps[k - 1]];
      RunStep(steps[..k - 1], steps[k - 1]);
      InvariantAt(steps, k - 1);
      EndStampIs(s, steps[k - 1], a);
      forall j | i <= j < k && EndsAt(steps, j, a) ensures Run(steps[..j]).clock <= s.clock {
        ClockRuns(steps, j, k - 1);
      }
    }
  }

  lemma InvariantAt(steps: seq<Step>, k: nat)
    requires k <= |steps|
    ensures Invariant(Run(steps[..k]))
  {
    hide Invariant;
    Reachable(steps[..k]);
  }

  lemma ClockRuns(steps: seq<Step>, j: nat, k: nat)
    requires j <= k <= |steps|
    ensures Run(steps[..j]).clock <= Run(steps[..k]).clock
  {
    hide Run;
    assert steps[..k] == steps[..j] + steps[j..k];
    KeysMoveForward(steps[..j], steps[j..k], All, 0);
  }

  /** A stamp that sorts meeting `a` before meeting `m`, stamped `at`. */
  predicate Later(stamp: int, a: MeetingId, at: int, m: MeetingId) {
    stamp > at || (stamp == at && a > m)
  }

  /** Between the two points some step ends `a`, at a reading that sorts it before `m`. */
  ghost predicate EndedPast(steps: seq<Step>, i: nat, k: nat, a: MeetingId, at: int, m: MeetingId) {
    exists j :: i <= j < k && EndsAt(steps, j, a) && Later(Run(steps[..j]).clock, a, at, m)
  }

  /** While both have stamps and that of `m` stands: `a`, once past it, is found before it if an end puts it there. */
  lemma FoundBeforeIff(steps: seq<Step>, i: nat, k: nat, a: MeetingId, m: MeetingId, at: int)
    requires i <= k <= |steps| && a in Run(steps[..i]).db.meetings && m in Run(steps[..i]).db.meetings
    requires a in Run(steps[..k]).db.meetings && m in Run(steps[..k]).db.meetings
    requires var before, after := Run(steps[..i]).db.meetings, Run(steps[..k]).db.meetings;
             && before[a].endedAt.Some? && after[a].endedAt.Some?
             && before[m].endedAt == Some(at) && after[m].endedAt == Some(at)
    ensures var before, after := Run(steps[..i]).db.meetings, Run(steps[..k]).db.meetings;
            && (StillAhead(Recent, before, Some(a), m) ==> StillAhead(Recent, after, Some(a), m))
            && (!StillAhead(Recent, before, Some(a), m) ==>
                  (StillAhead(Recent, after, Some(a), m) <==> EndedPast(steps, i, k, a, at, m)))
  {
    hide Run;
    hide EndsAt;
    InvariantIds(steps[..i]);
    InvariantIds(steps[..k]);
    StampLater(steps, i, k, a);
    assert steps[..k] == steps[..i] + steps[i..k];
    KeysMoveForward(steps[..i], steps[i..k], Recent, a);
    KeysAreOld(steps[..i], Recent, a);
    KeysAreOld(steps[..i], Recent, m);
  }

  lemma InvariantIds(steps: seq<Step>)
    ensures Keyed(Run(steps).db.meetings)
  {
    EveryTableIsStamped(steps);
    hide Run;
  }

  /** No page's anchor that has reached or passed `m` is ended so as to sort before it by the next request. */
  ghost predicate AnchorsStayPast(host: UserId, steps: seq<Step>, cuts: seq<nat>, views: seq<View>,
                                  cursor: Option<MeetingId>, m: MeetingId, at: int)
    requires |cuts| == |views|
    decreases |views|
  {
    |views| > 1 && Request(host, Recent, views[0], cursor).Listed? ==>
      var next := Request(host, Recent, views[0], cursor).page.nextCursor;
      next.Some? ==>
        && (!StillAhead(Recent, views[0].table, next, m) ==> !EndedPast(steps, cuts[0], cuts[1], next.value, at, m))
        && AnchorsStayPast(host, steps, cuts[1..], views[1..], next, m, at)
  }

  /** What a walk along a run that reaches the end has after a page with a successor. */
  lemma {:induction false} WalkAlongRunGoesOn(host: UserId, f: Filter, steps: seq<Step>, cuts: seq<nat>,
                                              views: seq<View>, cursor: Option<MeetingId>)
    requires AlongRun(steps, cuts, views) && Finishes(host, f, cursor, views)
    requires Request(host, f, views[0], cursor).page.nextCursor.Some?
    ensures var next := Request(host, f, views[0], cursor).page.nextCursor;
            && |views| > 1 && views[1..][0] == views[1] && cuts[1..][0] == cuts[1] && cuts[0] <= cuts[1]
            && AlongRun(steps, cuts[1..], views[1..]) && Finishes(host, f, next, views[1..])
            && next.value in views[0].table && Key(f, views[0].table[next.value]).Some?
            && next.value in views[1].table && Key(f, views[1].table[next.value]).Some?
  {
    hide Matches;
    hide Keyed;
    hide EndedIsStamped;
    hide Run;
    hide Precedes;
    var page := Request(host, f, views[0], cursor).page;
    AlongRunTablesOk(steps, cuts, views);
    PageHolds(host, f, views[0], cursor);
    assert page.items[|page.items| - 1] in page.items;
  }

  /** In the recent listing no anchor leaps over a staying row, and one comes back only by being ended again. */
  lemma {:induction false} RecentBacksIff(host: UserId, steps: seq<Step>, cuts: seq<nat>, views: seq<View>,
                                          cursor: Option<MeetingId>, m: MeetingId, at: int)
    requires AlongRun(steps, cuts, views) && Finishes(host, Recent, cursor, views)
    requires Stays(host, Recent, m, Some(at), views)
    ensures Leaps(host, Recent, cursor, views, m) == 0
    ensures Backs(host, Recent, cursor, views, m) == 0 <==> AnchorsStayPast(host, steps, cuts, views, cursor, m, at)
    decreases |views|
  {
    hide EndedPast;
    hide StillAhead;
    hide Matches;
    hide Run;
    hide Request;
    var page := Request(host, Recent, views[0], cursor).page;
    if page.nextCursor.Some? {
      WalkAlongRunGoesOn(host, Recent, steps, cuts, views, cursor);
      FoundBeforeIff(steps, cuts[0], cuts[1], page.nextCursor.value, m, at);
      RecentBacksIff(host, steps, cuts[1..], views[1..], page.nextCursor, m, at);
    }
  }

  /** No page's anchor is touched before the next request. */
  ghost predicate AnchorsUntouched(host: UserId, steps: seq<Step>, cuts: seq<nat>,
      views: seq<View>, cursor: Option<MeetingId>)
    requires |cuts| == |views|
    decreases |views|
  {
    |views| > 1 && Request(host, Recent, views[0], cursor).Listed? ==>
      var next := Request(host, Recent, views[0], cursor).page.nextCursor;
      next.Some? ==>
        && Untouched(steps, cuts[0], cuts[1], next.value)
        && AnchorsUntouched(host, steps, cuts[1..], views[1..], next)
  }

  lemma {:induction false} UntouchedAnchorsHold(host: UserId, steps: seq<Step>, cuts: seq<nat>, views: seq<View>,
                                                cursor: Option<MeetingId>)
    requires AlongRun(steps, cuts, views) && AnchorsUntouched(host, steps, cuts, views, cursor)
    ensures AnchorsHold(host, Recent, cursor, views)
    decreases |views|
  {
    hide Untouched;
    if views != [] && Request(host, Recent, views[0], cursor).Listed? {
      var page := Request(host, Recent, views[0], cursor).page;
      AlongRunTablesOk(steps, cuts, views);
      hide Request;
      hide Keyed;
      hide EndedIsStamped;
      PageHolds(host, Recent, views[0], cursor);
      if page.nextCursor.Some? && |views| > 1 {
        assert page.items[|page.items| - 1] in page.items;
        UntouchedKeepsStamp(steps, cuts[0], cuts[1], page.nextCursor.value);
        UntouchedAnchorsHold(host, steps, cuts[1..], views[1..], page.nextCursor);
      }
    }
  }

  lemma UntouchedStaysListed(host: UserId, steps: seq<Step>, cuts: seq<nat>, views: seq<View>, m: MeetingId)
    requires views != [] && AlongRun(steps, cuts, views)
    requires EndedMeeting(views[0].table, m) && views[0].table[m].hostId == host
    requires Untouched(steps, cuts[0], cuts[|cuts| - 1], m)
    ensures Stays(host, Recent, m, views[0].table[m].endedAt, views)
  {
    hide Run;
    forall k | 0 <= k < |views|
      ensures m in views[k].table && Matches(Recent, host, views[k].now, views[k].table[m])
      ensures Key(Recent, views[k].table[m]) == views[0].table[m].endedAt
    {
      var last := |cuts| - 1;
      assert cuts[0] <= cuts[k] <= cuts[last] by { if k < last { assert cuts[k] <= cuts[last]; } }
      UntouchedKeepsStamp(steps, cuts[0], cuts[k], m);
    }
  }

  /**
   * A walk over a host's ended meetings that reaches the end lists a meeting that was ended at the first
   * request, and is not touched itself, exactly once if and only if no anchor that has reached or passed it
   * is ended again, at a reading that sorts it before the meeting, by the next request. When no anchor is
   * touched at all the rows come in order, and without ties the walk does end.
   */
  lemma {:induction false} WalkOverRecentMeetings(host: UserId, steps: seq<Step>,
      cuts: seq<nat>, views: seq<View>, m: MeetingId)
    requires AlongRun(steps, cuts, views)
    requires views != [] && EndedMeeting(views[0].table, m) && views[0].table[m].hostId == host
    requires Untouched(steps, cuts[0], cuts[|cuts| - 1], m)
    ensures views[0].table[m].endedAt.Some?
    ensures Finishes(host, Recent, None, views) ==>
        (VisitedOnce(Visited(host, Recent, None, views), m)
         <==> AnchorsStayPast(host, steps, cuts, views, None, m, views[0].table[m].endedAt.value))
    ensures AnchorsUntouched(host, steps, cuts, views, None) ==> Sorted(Recent, Visited(host, Recent, None, views))
    ensures AnchorsUntouched(host, steps, cuts, views, None) && Finishes(host, Recent, None, views) ==>
        VisitedOnce(Visited(host, Recent, None, views), m)
    ensures AnchorsUntouched(host, steps, cuts, views, None)
            && NoTies(host, Recent, views) && |views| > |Hosted(host, views[0].table)| ==>
        Finishes(host, Recent, None, views)
  {
    hide Visited;
    hide Finishes;
    hide Precedes;
    hide NoTies;
    hide AnchorsHold;
    hide AnchorsUntouched;
    hide AnchorsStayPast;
    hide Untouched;
    hide Stays;
    hide Sorted;
    hide VisitedOnce;
    hide Backs;
    hide Leaps;
    hide Run;
    AlongRunTablesOk(steps, cuts, views);
    var at := views[0].table[m].endedAt;
    assert at.Some? by { assert Keyed(views[0].table) && EndedIsStamped(views[0].table); }
    UntouchedStaysListed(host, steps, cuts, views, m);
    if Finishes(host, Recent, None, views) {
      RecentBacksIff(host, steps, cuts, views, None, m, at.value);
      StableRowIsVisitedOnceIff(host, Recent, views, m, at);
    }
    if AnchorsUntouched(host, steps, cuts, views, None) {
      UntouchedAnchorsHold(host, steps, cuts, views, None);
      WalkIsSorted(host, Recent, None, views);
      if NoTies(host, Recent, views) && |views| > |Hosted(host, views[0].table)| {
        WalkAlongRunEnds(host, Recent, steps, cuts, views);
      }
      if Finishes(host, Recent, None, views) { StableRowIsVisitedOnce(host, Recent, views, m, at); }
    }
  }

  /** Between the two points some step restarts `a`, and none ends it after that. */
  ghost predicate Lost(steps: seq<Step>, i: nat, k: nat, a: MeetingId) {
    exists j :: i <= j < k && RestartsAt(steps, j, a) && forall l :: j < l < k ==> !EndsAt(steps, l, a)
  }

  ghost predicate RestartsAt(steps: seq<Step>, j: nat, a: MeetingId) {
    j < |steps| && Restarts(Run(steps[..j]), steps[j], a)
  }

  lemma {:induction false} StampIsLostIff(steps: seq<Step>, i: nat, k: nat, a: MeetingId)
    requires i <= k <= |steps| && a in Run(steps[..i]).db.meetings && Run(steps[..i]).db.meetings[a].endedAt.Some?
    ensures a in Run(steps[..k]).db.meetings
    ensures Run(steps[..k]).db.meetings[a].endedAt.None? <==> Lost(steps, i, k, a)
    decreases k - i
  {
    hide Apply;
    hide Invariant;
    hide Ends;
    hide Restarts;
    hide Run;
    if i < k {
      StampIsLostIff(steps, i, k - 1, a);
      assert steps[..k] == steps[..k - 1] + [steps[k - 1]];
      RunStep(steps[..k - 1], steps[k - 1]);
      InvariantAt(steps, k - 1);
      EndStampIs(Run(steps[..k - 1]), steps[k - 1], a);
      StartingIsNoEnding(Run(steps[..k - 1]), steps[k - 1], a);
      if RestartsAt(steps, k - 1, a) {
        assert Lost(steps, i, k, a);
      } else if Lost(steps, i, k - 1, a) && !EndsAt(steps, k - 1, a) {
        var j :| i <= j < k - 1 && RestartsAt(steps, j, a) && forall l :: j < l < k - 1 ==> !EndsAt(steps, l, a);
        assert Lost(steps, i, k, a);
      }
    }
  }

  /** The request after an ended meeting fails exactly if that was restarted meanwhile, and not ended after. */
  lemma {:induction false} NextRequestFailsIff(host: UserId, steps: seq<Step>, i: nat, k: nat,
      a: MeetingId, now: int, limit: int)
    requires i <= k <= |steps| && EndedMeeting(Run(steps[..i]).db.meetings, a)
    ensures Request(host, Recent, View(Run(steps[..k]).db.meetings, now, limit), Some(a)).Failed?
       <==> Lost(steps, i, k, a)
  {
    hide Run;
    hide Lost;
    EveryTableIsStamped(steps[..i]);
    StampIsLostIff(steps, i, k, a);
    RequestFailsIff(Run(steps[..k]).db.meetings, host, Recent, now, limit, Some(a));
  }

  /** A host who restarts the meeting that ends a page of the recent listing makes the next request fail. */
  lemma RestartFailsTheNextRequest(steps: seq<Step>, m: MeetingId, now: int, limit: int)
    requires EndedMeeting(Run(steps).db.meetings, m)
    ensures var host := Run(steps).db.meetings[m].hostId;
            var table := Run(steps + [StartMeeting(m, host)]).db.meetings;
            Request(host, Recent, View(table, now, limit), Some(m)) == Failed
  {
    var host := Run(steps).db.meetings[m].hostId;
    var step := StartMeeting(m, host);
    Reachable(steps);
    hide Run;
    hide Apply;
    EndStampMovesIff(Run(steps), step, m);
    RequestFailsIff(Apply(Run(steps), step).db.meetings, host, Recent, now, limit, Some(m));
  }
}
