// The upcoming and day listings over the tables a run of the server goes through: they sort by the
// scheduled start, which an edit moves.

module ScheduledPages {
  import opened Model
  import Lifecycle
  import opened Protocol
  import opened Registry
  import opened Server
  import opened ServerProofs
  import opened Guarantees
  import opened Pagination
  import opened Columns
  import opened MeetingPages

  predicate ByStart(f: Filter) {
    f.Upcoming? || f.Day?
  }

  // --- What moves a scheduled start ------------------------------------------------------------------------

  /** An edit gives a meeting the start it names, and nothing else moves a start. */
  lemma StartIs(s: State, step: Step, m: MeetingId)
    requires Invariant(s) && m in s.db.meetings
    ensures var t := Apply(s, step).db.meetings;
            && m in t
            && t[m].scheduledStart == if Edits(s, step, m) then step.start else s.db.meetings[m].scheduledStart
  {
    hide Invariant;
    hide Apply;
    hide Edits;
    hide MeetingCreated;
    StepWritesMeetings(s, step);
    assert MeetingWritten(s, step, Apply(s, step), m);
  }

  /** So a start moves in one step exactly by an edit that names another. */
  lemma StartMovesIff(s: State, step: Step, m: MeetingId)
    requires Invariant(s) && m in s.db.meetings
    ensures m in Apply(s, step).db.meetings
    ensures Apply(s, step).db.meetings[m].scheduledStart != s.db.meetings[m].scheduledStart
       <==> Edits(s, step, m) && step.start != s.db.meetings[m].scheduledStart
  {
    hide Invariant;
    hide Apply;
    hide Edits;
    StartIs(s, step, m);
  }

  /** The start the last edit of `a` between the two points names, if there is one. */
  function LastEdit(steps: seq<Step>, i: nat, k: nat, a: MeetingId): Option<int>
    requires k <= |steps|
  {
    if k <= i then None
    else if Edits(Run(steps[..k - 1]), steps[k - 1], a) then steps[k - 1].start
    else LastEdit(steps, i, k - 1, a)
  }

  lemma {:induction false} StartIsTheLastEdit(steps: seq<Step>, i: nat, k: nat, a: MeetingId)
    requires i <= k <= |steps| && a in Run(steps[..i]).db.meetings
    ensures a in Run(steps[..k]).db.meetings
    ensures Run(steps[..k]).db.meetings[a].scheduledStart
         == if LastEdit(steps, i, k, a).Some? then LastEdit(steps, i, k, a)
            else Run(steps[..i]).db.meetings[a].scheduledStart
    decreases k - i
  {
    hide Apply;
    hide Invariant;
    hide Run;
    if i < k {
      StartIsTheLastEdit(steps, i, k - 1, a);
      assert steps[..k] == steps[..k - 1] + [steps[k - 1]];
      RunStep(steps[..k - 1], steps[k - 1]);
      InvariantAt(steps, k - 1);
      StartIs(Run(steps[..k - 1]), steps[k - 1], a);
    }
  }

  // --- Walks ------------------------------------------------------------------------------------------------

  /** A start that sorts meeting `a` before meeting `m`, which starts `at`. */
  predicate Sooner(start: int, a: MeetingId, at: int, m: MeetingId) {
    start < at || (start == at && a < m)
  }

  /** The anchors that had reached or passed `m` and whose last edit before the next request puts them before it. */
  function EditedBack(host: UserId, f: Filter, steps: seq<Step>, cuts: seq<nat>, views: seq<View>,
                      cursor: Option<MeetingId>, m: MeetingId, at: int): nat
    requires |cuts| == |views| && forall k :: 0 <= k < |cuts| ==> cuts[k] <= |steps|
    decreases |views|
  {
    if |views| <= 1 || !Request(host, f, views[0], cursor).Listed? then 0
    else
      var next := Request(host, f, views[0], cursor).page.nextCursor;
      if next.None? then 0
      else
        var edit := LastEdit(steps, cuts[0], cuts[1], next.value);
        (if !StillAhead(f, views[0].table, next, m)
            && edit.Some? && Sooner(edit.value, next.value, at, m) then 1 else 0)
        + EditedBack(host, f, steps, cuts[1..], views[1..], next, m, at)
  }

  /** The anchors that stood before `m` and whose last edit before the next request does not leave them there. */
  function EditedOver(host: UserId, f: Filter, steps: seq<Step>, cuts: seq<nat>, views: seq<View>,
                      cursor: Option<MeetingId>, m: MeetingId, at: int): nat
    requires |cuts| == |views| && forall k :: 0 <= k < |cuts| ==> cuts[k] <= |steps|
    decreases |views|
  {
    if |views| <= 1 || !Request(host, f, views[0], cursor).Listed? then 0
    else
      var next := Request(host, f, views[0], cursor).page.nextCursor;
      if next.None? then 0
      else
        var edit := LastEdit(steps, cuts[0], cuts[1], next.value);
        (if StillAhead(f, views[0].table, next, m)
            && edit.Some? && !Sooner(edit.value, next.value, at, m) then 1 else 0)
        + EditedOver(host, f, steps, cuts[1..], views[1..], next, m, at)
  }

  /** Where an anchor is found again is decided by its last edit. */
  lemma {:induction false} FoundByEdit(f: Filter, steps: seq<Step>, i: nat, k: nat, a: MeetingId, m: MeetingId, at: int)
    requires ByStart(f) && i <= k <= |steps|
    requires a in Run(steps[..i]).db.meetings && m in Run(steps[..i]).db.meetings
    requires Run(steps[..i]).db.meetings[a].scheduledStart.Some?
    requires Run(steps[..i]).db.meetings[m].scheduledStart == Some(at)
    requires m in Run(steps[..k]).db.meetings && Run(steps[..k]).db.meetings[m].scheduledStart == Some(at)
    ensures var edit := LastEdit(steps, i, k, a);
            StillAhead(f, Run(steps[..k]).db.meetings, Some(a), m)
            <==> if edit.Some? then Sooner(edit.value, a, at, m)
                 else StillAhead(f, Run(steps[..i]).db.meetings, Some(a), m)
  {
    hide Run;
    hide LastEdit;
    InvariantIds(steps[..i]);
    InvariantIds(steps[..k]);
    StartIsTheLastEdit(steps, i, k, a);
  }

  lemma {:induction false} EditsDecide(host: UserId, f: Filter, steps: seq<Step>, cuts: seq<nat>, views: seq<View>,
                                       cursor: Option<MeetingId>, m: MeetingId, at: int)
    requires ByStart(f) && AlongRun(steps, cuts, views) && Finishes(host, f, cursor, views)
    requires Stays(host, f, m, Some(at), views)
    ensures Backs(host, f, cursor, views, m) == EditedBack(host, f, steps, cuts, views, cursor, m, at)
    ensures Leaps(host, f, cursor, views, m) == EditedOver(host, f, steps, cuts, views, cursor, m, at)
    decreases |views|
  {
    hide StillAhead;
    hide Sooner;
    hide Matches;
    hide Run;
    hide LastEdit;
    hide Request;
    var page := Request(host, f, views[0], cursor).page;
    if page.nextCursor.Some? {
      WalkAlongRunGoesOn(host, f, steps, cuts, views, cursor);
      FoundByEdit(f, steps, cuts[0], cuts[1], page.nextCursor.value, m, at);
      EditsDecide(host, f, steps, cuts[1..], views[1..], page.nextCursor, m, at);
    }
  }

  /**
   * A walk over upcoming meetings, or over those of a day, that reaches the end lists a meeting that stays
   * listed under one start exactly once if and only if as many anchors are moved back over it by edits as
   * are moved on over it; in general once, and once more or less for each of them.
   */
  lemma {:induction false} WalkOverScheduledMeetings(host: UserId, f: Filter, steps: seq<Step>,
      cuts: seq<nat>, views: seq<View>, m: MeetingId, at: int)
    requires ByStart(f) && AlongRun(steps, cuts, views) && Finishes(host, f, None, views)
    requires Stays(host, f, m, Some(at), views)
    ensures VisitedOnce(Visited(host, f, None, views), m)
       <==> EditedBack(host, f, steps, cuts, views, None, m, at) == EditedOver(host, f, steps, cuts, views, None, m, at)
    ensures Times(Visited(host, f, None, views), m) + EditedOver(host, f, steps, cuts, views, None, m, at)
         == 1 + EditedBack(host, f, steps, cuts, views, None, m, at)
  {
    hide Finishes;
    hide Stays;
    hide Visited;
    hide Run;
    AlongRunTablesOk(steps, cuts, views);
    EditsDecide(host, f, steps, cuts, views, None, m, at);
    StableRowIsVisitedOnceIff(host, f, views, m, Some(at));
  }
}
