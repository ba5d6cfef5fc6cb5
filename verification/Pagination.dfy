// Listing a host's meetings page by page. The cursor is the id of the last row of a page; the
// next page resumes after that row's key, whatever happened to the table in between.

module Pagination {
  import opened Model
  import opened Protocol

  type Table = map<MeetingId, Meeting>

  const MAX_PAGE_LIMIT: int := 100

  /** One day, in the microseconds times are counted in. */
  const DAY: int := 86_400_000_000

  datatype DateParam = NoDate | BadDate | Date(start: int)

  datatype Filter = Upcoming | Recent | Day(date: DateParam) | All | Unrecognised

  datatype Refusal = DateRequired | DateMalformed | FilterUnknown | CursorUnknown

  datatype Page = Page(items: seq<Meeting>, nextCursor: Option<MeetingId>, hasMore: bool)

  /** `Failed`: the request dies of an error nobody handles. */
  datatype Response = Listed(page: Page) | Refused(reason: Refusal) | Failed

  // --- The query -----------------------------------------------------------------------------

  predicate Descending(f: Filter) {
    f.Recent? || f.All?
  }

  function Key(f: Filter, m: Meeting): Option<int> {
    match f
    case Recent => m.endedAt
    case All => Some(m.createdAt)
    case _ => m.scheduledStart
  }

  predicate Matches(f: Filter, host: UserId, now: int, m: Meeting) {
    && m.hostId == host
    && match f
       case Upcoming => (m.status.Scheduled? || m.status.Live?) && m.scheduledStart.Some? &&
           m.scheduledStart.value >= now
       case Recent => m.status.Ended?
       case Day(date) =>
         && date.Date? && !m.status.Cancelled? && m.scheduledStart.Some?
         && date.start <= m.scheduledStart.value < date.start + DAY
       case All => true
       case Unrecognised => false
  }

  /** An absent key sorts below every other. */
  predicate Below(a: Option<int>, b: Option<int>) {
    b.Some? && (a.None? || a.value < b.value)
  }

  /** The sort order: by key, then by id, both in the filter's direction. */
  predicate Precedes(f: Filter, a: Meeting, b: Meeting) {
    if Descending(f) then Below(Key(f, b), Key(f, a)) || (Key(f, a) == Key(f, b) && b.id < a.id)
    else Below(Key(f, a), Key(f, b)) || (Key(f, a) == Key(f, b) && a.id < b.id)
  }

  /** A cursor whose row has a key: only then can the cursor's condition be written at all. */
  predicate Resumable(f: Filter, after: Option<Meeting>) {
    after.Some? ==> Key(f, after.value).Some?
  }

  /** The cursor's condition; a row without a key meets it never. */
  predicate Follows(f: Filter, anchor: Meeting, m: Meeting)
    requires Key(f, anchor).Some?
  {
    && Key(f, m).Some?
    && if Descending(f) then
         Key(f, m).value < Key(f, anchor).value || (Key(f, m) == Key(f, anchor) && m.id < anchor.id)
       else
         Key(f, m).value > Key(f, anchor).value || (Key(f, m) == Key(f, anchor) && m.id > anchor.id)
  }

  function Insert(f: Filter, m: Meeting, sorted: seq<Meeting>): seq<Meeting> {
    if sorted == [] || Precedes(f, m, sorted[0]) then [m] + sorted else [sorted[0]] + Insert(f, m, sorted[1..])
  }

  function Arranged(f: Filter, table: Table, ids: seq<MeetingId>): seq<Meeting>
    requires forall i :: 0 <= i < |ids| ==> ids[i] in table
  {
    if ids == [] then [] else Insert(f, table[ids[0]], Arranged(f, table, ids[1..]))
  }

  predicate Selected(table: Table, f: Filter, host: UserId, now: int, after: Option<Meeting>, id: MeetingId)
    requires Resumable(f, after)
  {
    id in table && Matches(f, host, now, table[id]) && (after.Some? ==> Follows(f, after.value, table[id]))
  }

  /** Every row the query selects, in order. */
  function Rows(table: Table, f: Filter, host: UserId, now: int, after: Option<Meeting>): seq<Meeting>
    requires Resumable(f, after)
  {
    var ids := Ascending(set id | id in table && Selected(table, f, host, now, after, id));
    assert forall i :: 0 <= i < |ids| ==> ids[i] in ids;
    Arranged(f, table, ids)
  }

  function Clamped(limit: int): (n: nat)
    ensures 1 <= n <= MAX_PAGE_LIMIT
  {
    var low := if limit < MAX_PAGE_LIMIT then limit else MAX_PAGE_LIMIT;
    if low < 1 then 1 else low
  }

  function Refusing(f: Filter): Option<Refusal> {
    match f
    case Day(NoDate) => Some(DateRequired)
    case Day(BadDate) => Some(DateMalformed)
    case Unrecognised => Some(FilterUnknown)
    case _ => None
  }

  /** One row too many is fetched, to learn whether there is another page. */
  function PageOf(rows: seq<Meeting>, n: nat): Page
    requires n >= 1
  {
    if |rows| > n then Page(rows[..n], Some(rows[n - 1].id), true) else Page(rows, None, false)
  }

  /** Comparing a column with an absent key is an error of the query builder, not a comparison. */
  function ListForHost(table: Table, host: UserId, f: Filter, now: int, limit: int,
      cursor: Option<MeetingId>): Response {
    if Refusing(f).Some? then Refused(Refusing(f).value)
    else if cursor.Some? && cursor.value !in table then Refused(CursorUnknown)
    else
      var after := if cursor.Some? then Some(table[cursor.value]) else None;
      if !Resumable(f, after) then Failed
      else Listed(PageOf(Rows(table, f, host, now, after), Clamped(limit)))
  }

  /** A request is refused or fails before the listing is looked at, and for these reasons alone. */
  lemma RequestFailsIff(table: Table, host: UserId, f: Filter, now: int, limit: int, cursor: Option<MeetingId>)
    ensures ListForHost(table, host, f, now, limit, cursor).Failed? <==>
              Refusing(f).None? && cursor.Some? && cursor.value in table && Key(f, table[cursor.value]).None?
    ensures ListForHost(table, host, f, now, limit, cursor).Refused? <==>
              Refusing(f).Some? || (cursor.Some? && cursor.value !in table)
  {
  }

  // --- The order -----------------------------------------------------------------------------

  ghost predicate Sorted(f: Filter, ms: seq<Meeting>) {
    forall i, j :: 0 <= i < j < |ms| ==> Precedes(f, ms[i], ms[j])
  }

  lemma PrecedesIsTotal(f: Filter, a: Meeting, b: Meeting)
    requires a.id != b.id
    ensures Precedes(f, a, b) != Precedes(f, b, a)
  {
  }

  lemma PrecedesIsTransitive(f: Filter, a: Meeting, b: Meeting, c: Meeting)
    requires Precedes(f, a, b) && Precedes(f, b, c)
    ensures Precedes(f, a, c)
  {
  }

  lemma FollowsIsPrecedes(f: Filter, a: Meeting, b: Meeting)
    requires Key(f, a).Some? && Key(f, b).Some?
    ensures Follows(f, a, b) <==> Precedes(f, a, b)
  {
  }

  lemma {:induction false} InsertHolds(f: Filter, m: Meeting, sorted: seq<Meeting>)
    requires Sorted(f, sorted) && forall i :: 0 <= i < |sorted| ==> sorted[i].id != m.id
    ensures Sorted(f, Insert(f, m, sorted)) && |Insert(f, m, sorted)| == |sorted| + 1
    ensures forall x :: x in Insert(f, m, sorted) <==> x == m || x in sorted
  {
    hide Precedes;
    if sorted == [] {
    } else if Precedes(f, m, sorted[0]) {
      forall j | 0 <= j < |sorted| ensures Precedes(f, m, sorted[j]) {
        if j > 0 { PrecedesIsTransitive(f, m, sorted[0], sorted[j]); }
      }
    } else {
      InsertHolds(f, m, sorted[1..]);
      PrecedesIsTotal(f, m, sorted[0]);
      var rest := Insert(f, m, sorted[1..]);
      forall j | 0 <= j < |rest| ensures Precedes(f, sorted[0], rest[j]) {
        assert rest[j] in rest;
        if rest[j] in sorted[1..] {
          var k :| 0 <= k < |sorted| - 1 && sorted[1..][k] == rest[j];
          assert sorted[k + 1] == rest[j];
        }
      }
      forall x | x in Insert(f, m, sorted) ensures x == m || x in sorted {
      }
      forall x | x == m || x in sorted ensures x in Insert(f, m, sorted) {
        if x != sorted[0] && x != m { assert x in sorted[1..]; }
      }
    }
  }

  ghost predicate Keyed(table: Table) {
    forall id :: id in table ==> table[id].id == id
  }

  lemma {:induction false} ArrangedHolds(f: Filter, table: Table, ids: seq<MeetingId>)
    requires Keyed(table)
    requires forall i :: 0 <= i < |ids| ==> ids[i] in table
    requires forall i, j :: 0 <= i < j < |ids| ==> ids[i] < ids[j]
    ensures Sorted(f, Arranged(f, table, ids)) && |Arranged(f, table, ids)| == |ids|
    ensures forall x :: x in Arranged(f, table, ids) <==> x.id in ids && x == table[x.id]
  {
    if ids != [] {
      var rest := Arranged(f, table, ids[1..]);
      ArrangedHolds(f, table, ids[1..]);
      forall i | 0 <= i < |rest| ensures rest[i].id != ids[0] {
        assert rest[i] in rest;
      }
      InsertHolds(f, table[ids[0]], rest);
      assert ids == [ids[0]] + ids[1..];
    }
  }

  /** The query's meaning: exactly the selected rows, each once, in strict order. */
  lemma RowsHold(table: Table, f: Filter, host: UserId, now: int, after: Option<Meeting>)
    requires Keyed(table) && Resumable(f, after)
    ensures var rows := Rows(table, f, host, now, after);
            && Sorted(f, rows)
            && forall x :: x in rows <==> Selected(table, f, host, now, after, x.id) && x == table[x.id]
  {
    var ids := Ascending(set id | id in table && Selected(table, f, host, now, after, id));
    assert forall i :: 0 <= i < |ids| ==> ids[i] in ids;
    ArrangedHolds(f, table, ids);
  }

  /** There is another page exactly when some selected row is not on this one. */
  lemma HasMoreIsExact(table: Table, host: UserId, f: Filter, now: int, limit: int, cursor: Option<MeetingId>)
    requires Keyed(table) && ListForHost(table, host, f, now, limit, cursor).Listed?
    ensures var page := ListForHost(table, host, f, now, limit, cursor).page;
            var after := if cursor.Some? then Some(table[cursor.value]) else None;
            && (page.hasMore <==> exists id :: Selected(table, f, host, now, after, id) && table[id] !in page.items)
            && (page.hasMore <==> page.nextCursor.Some?)
            && (page.hasMore ==> page.items != [] && page.nextCursor.value == page.items[|page.items| - 1].id)
  {
    var page := ListForHost(table, host, f, now, limit, cursor).page;
    var after := if cursor.Some? then Some(table[cursor.value]) else None;
    var rows := Rows(table, f, host, now, after);
    RowsHold(table, f, host, now, after);
    hide Rows;
    hide Selected;
    hide Precedes;
    if page.hasMore {
      var n := Clamped(limit);
      assert rows[n] in rows;
      forall i | 0 <= i < n ensures page.items[i] != rows[n] {
        assert Precedes(f, rows[i], rows[n]);
      }
      assert Selected(table, f, host, now, after, rows[n].id) && table[rows[n].id] !in page.items;
    }
  }

  /** A page is as long as asked for, between one row and a hundred, or holds all there are. */
  lemma PageIsFull(table: Table, host: UserId, f: Filter, now: int, limit: int, cursor: Option<MeetingId>)
    requires ListForHost(table, host, f, now, limit, cursor).Listed?
    ensures var page := ListForHost(table, host, f, now, limit, cursor).page;
            var n := if limit < 1 then 1 else if limit > 100 then 100 else limit;
            |page.items| <= n && (page.hasMore ==> |page.items| == n)
  {
    hide Rows;
  }

  /** A day must be named and well-formed, and a filter known: these refusals come before anything else. */
  lemma FiltersAreRefusedFor(table: Table, host: UserId, f: Filter, now: int, limit: int, cursor: Option<MeetingId>)
    ensures var r := ListForHost(table, host, f, now, limit, cursor);
            && (r == Refused(DateRequired) <==> f == Day(NoDate))
            && (r == Refused(DateMalformed) <==> f == Day(BadDate))
            && (r == Refused(FilterUnknown) <==> f == Unrecognised)
            && (f.Upcoming? || f.Recent? || f.All? || (f.Day? && f.date.Date?) ==>
                  (r == Refused(CursorUnknown) <==> cursor.Some? && cursor.value !in table))
  {
  }

  lemma PrecedesIsIrreflexive(f: Filter, a: Meeting)
    ensures !Precedes(f, a, a)
  {
  }

  // --- Walking a changing table --------------------------------------------------------------------

  /** What one request of the walk finds. */
  datatype View = View(table: Table, now: int, limit: int)

  function Request(host: UserId, f: Filter, v: View, cursor: Option<MeetingId>): Response {
    ListForHost(v.table, host, f, v.now, v.limit, cursor)
  }

  /** The rows a walk collects, one request per view, until there is no next cursor. */
  function Visited(host: UserId, f: Filter, cursor: Option<MeetingId>, views: seq<View>): seq<Meeting>
    decreases |views|
  {
    if views == [] then []
    else
      match Request(host, f, views[0], cursor)
      case Refused(_) => []
      case Failed => []
      case Listed(page) =>
        page.items + if page.nextCursor.None? then [] else Visited(host, f, page.nextCursor, views[1..])
  }

  /** The walk reaches the end within these views. */
  predicate Finishes(host: UserId, f: Filter, cursor: Option<MeetingId>, views: seq<View>)
    decreases |views|
  {
    && views != []
    && match Request(host, f, views[0], cursor)
       case Refused(_) => false
       case Failed => false
       case Listed(page) => page.nextCursor.None? || Finishes(host, f, page.nextCursor, views[1..])
  }

  ghost predicate EndedIsStamped(table: Table) {
    forall id :: id in table && table[id].status.Ended? ==> table[id].endedAt.Some?
  }

  /** Rows are never deleted, and a row that anchored a page keeps its key until the next request. */
  ghost predicate AnchorsHold(host: UserId, f: Filter, cursor: Option<MeetingId>, views: seq<View>)
    decreases |views|
  {
    views != [] ==>
      match Request(host, f, views[0], cursor)
      case Refused(_) => true
      case Failed => true
      case Listed(page) =>
        page.nextCursor.Some? && |views| > 1 ==>
          && page.nextCursor.value in views[0].table && page.nextCursor.value in views[1].table
          && Key(f, views[1].table[page.nextCursor.value]) == Key(f, views[0].table[page.nextCursor.value])
          && AnchorsHold(host, f, page.nextCursor, views[1..])
  }

  ghost predicate TablesOk(views: seq<View>) {
    forall k :: 0 <= k < |views| ==> Keyed(views[k].table) && EndedIsStamped(views[k].table)
  }

  lemma MatchesHasKey(f: Filter, host: UserId, now: int, table: Table, id: MeetingId)
    requires EndedIsStamped(table) && id in table && Matches(f, host, now, table[id])
    ensures Key(f, table[id]).Some?
  {
  }

  /** What a page says: its rows in order, all after the cursor, and all before anything left out. */
  lemma PageHolds(host: UserId, f: Filter, v: View, cursor: Option<MeetingId>)
    requires Keyed(v.table) && EndedIsStamped(v.table) && Request(host, f, v, cursor).Listed?
    ensures var page := Request(host, f, v, cursor).page;
            && Sorted(f, page.items)
            && (forall x :: x in page.items ==>
                  x.id in v.table && x == v.table[x.id] && Key(f, x).Some? && Matches(f, host, v.now, x))
            && (cursor.Some? ==>
                 cursor.value in v.table && forall x :: x in page.items ==> Precedes(f, v.table[cursor.value], x))
            && (page.nextCursor.Some? ==>
                  && page.items != [] && page.nextCursor.value == page.items[|page.items| - 1].id)
  {
    hide Precedes;
    hide Matches;
    hide Rows;
    hide Follows;
    var after := if cursor.Some? then Some(v.table[cursor.value]) else None;
    var rows := Rows(v.table, f, host, v.now, after);
    var page := Request(host, f, v, cursor).page;
    RowsHold(v.table, f, host, v.now, after);
    forall x | x in page.items
      ensures x.id in v.table && x == v.table[x.id] && Key(f, x).Some? && Matches(f, host, v.now, x)
      ensures cursor.Some? ==> Precedes(f, v.table[cursor.value], x)
    {
      assert x in rows;
      MatchesHasKey(f, host, v.now, v.table, x.id);
      if cursor.Some? {
        FollowsIsPrecedes(f, v.table[cursor.value], x);
      }
    }
  }

  /** Only key and id count for the order. */
  lemma SamePlace(f: Filter, a: Meeting, b: Meeting, x: Meeting)
    requires a.id == b.id && Key(f, a) == Key(f, b)
    ensures Precedes(f, a, x) <==> Precedes(f, b, x)
    ensures Precedes(f, x, a) <==> Precedes(f, x, b)
  {
  }

  /**
   * Whatever is inserted or changed between the pages, the rows visited are in strict sort order, so
   * no row is visited twice under one key.
   */
  lemma {:induction false} WalkIsSorted(host: UserId, f: Filter, cursor: Option<MeetingId>, views: seq<View>)
    requires TablesOk(views) && AnchorsHold(host, f, cursor, views)
    ensures Sorted(f, Visited(host, f, cursor, views))
    ensures cursor.Some? && views != [] && cursor.value in views[0].table ==>
              forall x :: x in Visited(host, f, cursor, views) ==> Precedes(f, views[0].table[cursor.value], x)
    decreases |views|
  {
    hide EndedIsStamped;
    hide Precedes;
    hide Key;
    if views != [] && Request(host, f, views[0], cursor).Listed? {
      var page := Request(host, f, views[0], cursor).page;
      hide Request;
      PageHolds(host, f, views[0], cursor);
      if page.nextCursor.Some? && |views| > 1 {
        WalkIsSorted(host, f, page.nextCursor, views[1..]);
        var rest := Visited(host, f, page.nextCursor, views[1..]);
        var anchor := page.items[|page.items| - 1];
        assert anchor in page.items;
        assert views[1..][0] == views[1];
        forall x | x in rest ensures Precedes(f, anchor, x) {
          SamePlace(f, views[1].table[page.nextCursor.value], anchor, x);
        }
        if cursor.Some? {
          forall x | x in rest ensures Precedes(f, views[0].table[cursor.value], x) {
            PrecedesIsTransitive(f, views[0].table[cursor.value], anchor, x);
          }
        }
        SortedTogether(f, page.items, rest);
      }
    }
  }

  /** A sorted run goes on with another one that starts after its last element. */
  lemma SortedTogether(f: Filter, a: seq<Meeting>, b: seq<Meeting>)
    requires Sorted(f, a) && Sorted(f, b) && a != []
    requires forall x :: x in b ==> Precedes(f, a[|a| - 1], x)
    ensures Sorted(f, a + b)
  {
    hide Precedes;
    forall i, j | 0 <= i < j < |a + b| ensures Precedes(f, (a + b)[i], (a + b)[j]) {
      if i < |a| <= j {
        assert b[j - |a|] in b;
        if i < |a| - 1 { PrecedesIsTransitive(f, a[i], a[|a| - 1], b[j - |a|]); }
      }
    }
  }

  // --- Nothing is skipped ------------------------------------------------------------------------------

  /** A matching row after the cursor is on the page, or comes after the page's last row. */
  lemma OnThePageOrLater(host: UserId, f: Filter, v: View, cursor: Option<MeetingId>, id: MeetingId)
    requires Keyed(v.table) && EndedIsStamped(v.table) && Request(host, f, v, cursor).Listed?
    requires id in v.table && Matches(f, host, v.now, v.table[id])
    requires cursor.Some? ==>
               cursor.value in v.table && Key(f, v.table[cursor.value]).Some? &&
                   Precedes(f, v.table[cursor.value], v.table[id])
    ensures var page := Request(host, f, v, cursor).page;
            || v.table[id] in page.items
            || (&& page.nextCursor.Some? && page.nextCursor.value in v.table
                && Key(f, v.table[page.nextCursor.value]).Some? &&
                    Precedes(f, v.table[page.nextCursor.value], v.table[id]))
  {
    hide Precedes;
    hide Matches;
    hide Rows;
    hide Follows;
    hide Key;
    var after := if cursor.Some? then Some(v.table[cursor.value]) else None;
    var rows := Rows(v.table, f, host, v.now, after);
    RowsHold(v.table, f, host, v.now, after);
    MatchesHasKey(f, host, v.now, v.table, id);
    if cursor.Some? { FollowsIsPrecedes(f, v.table[cursor.value], v.table[id]); }
    assert v.table[id] in rows;
    var i :| 0 <= i < |rows| && rows[i] == v.table[id];
    var n := Clamped(v.limit);
    if |rows| > n && i >= n {
      assert rows[n - 1] in rows;
      MatchesHasKey(f, host, v.now, v.table, rows[n - 1].id);
    } else if |rows| > n {
      assert rows[..n][i] == v.table[id];
    }
  }

  /** In every view the row is there, matches, and has this key. */
  ghost predicate Stays(host: UserId, f: Filter, id: MeetingId, key: Option<int>, views: seq<View>) {
    forall k :: 0 <= k < |views| ==>
      id in views[k].table && Matches(f, host, views[k].now, views[k].table[id]) && Key(f, views[k].table[id]) == key
  }

  // --- How often a row is listed -------------------------------------------------------------------------

  /** How often these rows list the meeting. */
  function Times(rows: seq<Meeting>, id: MeetingId): nat {
    if rows == [] then 0
    else Times(rows[..|rows| - 1], id) + if rows[|rows| - 1].id == id then 1 else 0
  }

  ghost predicate VisitedOnce(visited: seq<Meeting>, id: MeetingId) {
    Times(visited, id) == 1
  }

  lemma {:induction false} TimesTogether(a: seq<Meeting>, b: seq<Meeting>, id: MeetingId)
    ensures Times(a + b, id) == Times(a, id) + Times(b, id)
  {
    if b == [] {
      assert a + b == a;
    } else {
      var n := |b| - 1;
      assert (a + b)[..|a + b| - 1] == a + b[..n];
      TimesTogether(a, b[..n], id);
    }
  }

  lemma {:induction false} TimesInOrder(f: Filter, rows: seq<Meeting>, x: Meeting)
    requires Sorted(f, rows) && forall y :: y in rows && y.id == x.id ==> y == x
    ensures Times(rows, x.id) == if x in rows then 1 else 0
  {
    hide Precedes;
    if rows != [] {
      var n := |rows| - 1;
      TimesInOrder(f, rows[..n], x);
      assert rows == rows[..n] + [rows[n]];
      if rows[n] == x {
        PrecedesIsIrreflexive(f, x);
        assert forall i :: 0 <= i < n ==> Precedes(f, rows[i], x);
      }
      assert rows[n] in rows;
    }
  }

  /** The row is still ahead of the cursor: the cursor's row sorts before it. */
  predicate StillAhead(f: Filter, table: Table, cursor: Option<MeetingId>, id: MeetingId) {
    cursor.Some? ==> cursor.value in table && id in table && Precedes(f, table[cursor.value], table[id])
  }

  /** A matching row is on the page if it was ahead of the cursor and is not ahead of the next one. */
  lemma {:induction false} PageCounts(host: UserId, f: Filter, v: View, cursor: Option<MeetingId>, id: MeetingId)
    requires Keyed(v.table) && EndedIsStamped(v.table) && Request(host, f, v, cursor).Listed?
    requires id in v.table && Matches(f, host, v.now, v.table[id])
    ensures var page := Request(host, f, v, cursor).page;
            var after := page.nextCursor.Some? && StillAhead(f, v.table, page.nextCursor, id);
            Times(page.items, id) + (if after then 1 else 0) == if StillAhead(f, v.table, cursor, id) then 1 else 0
  {
    hide Precedes;
    hide Matches;
    hide Key;
    hide Rows;
    hide Times;
    var page := Request(host, f, v, cursor).page;
    var row := v.table[id];
    PageHolds(host, f, v, cursor);
    TimesInOrder(f, page.items, row);
    if StillAhead(f, v.table, cursor, id) { OnThePageOrLater(host, f, v, cursor, id); }
    if page.nextCursor.Some? {
      var last := page.items[|page.items| - 1];
      assert last in page.items;
      PrecedesIsIrreflexive(f, row);
      if Precedes(f, last, row) {
        if cursor.Some? { PrecedesIsTransitive(f, v.table[cursor.value], last, row); }
        if row in page.items {
          var i :| 0 <= i < |page.items| && page.items[i] == row;
          assert i < |page.items| - 1;
          PrecedesIsTransitive(f, row, last, row);
        }
      }
    }
  }

  /** The anchors that had passed the row when they were listed and are found before it by the next request. */
  function Backs(host: UserId, f: Filter, cursor: Option<MeetingId>, views: seq<View>, id: MeetingId): nat
    decreases |views|
  {
    if |views| <= 1 || !Request(host, f, views[0], cursor).Listed? then 0
    else
      var next := Request(host, f, views[0], cursor).page.nextCursor;
      if next.None? then 0
      else
        (if !StillAhead(f, views[0].table, next, id) && StillAhead(f, views[1].table, next, id) then 1 else 0)
        + Backs(host, f, next, views[1..], id)
  }

  /** The anchors that stood before the row when they were listed and are found at it or past it by the next request. */
  function Leaps(host: UserId, f: Filter, cursor: Option<MeetingId>, views: seq<View>, id: MeetingId): nat
    decreases |views|
  {
    if |views| <= 1 || !Request(host, f, views[0], cursor).Listed? then 0
    else
      var next := Request(host, f, views[0], cursor).page.nextCursor;
      if next.None? then 0
      else
        (if StillAhead(f, views[0].table, next, id) && !StillAhead(f, views[1].table, next, id) then 1 else 0)
        + Leaps(host, f, next, views[1..], id)
  }

  /** What the hypotheses on a walk say of its first request, and of the rest if there is one. */
  lemma {:induction false} RowGoesOn(host: UserId, f: Filter, cursor: Option<MeetingId>, views: seq<View>,
                                     id: MeetingId, key: Option<int>)
    requires TablesOk(views) && Finishes(host, f, cursor, views) && Stays(host, f, id, key, views)
    ensures views != [] && Request(host, f, views[0], cursor).Listed?
    ensures Keyed(views[0].table) && EndedIsStamped(views[0].table)
    ensures id in views[0].table && Matches(f, host, views[0].now, views[0].table[id])
    ensures var next := Request(host, f, views[0], cursor).page.nextCursor;
            next.Some? ==>
              && |views| > 1 && views[1..][0] == views[1]
              && TablesOk(views[1..]) && Finishes(host, f, next, views[1..]) && Stays(host, f, id, key, views[1..])
  {
    hide Matches;
    hide Keyed;
    hide EndedIsStamped;
    hide Key;
    hide Request;
  }

  /** A walk lists a staying row once for being ahead, once more for each step back, and once less for each leap. */
  lemma {:induction false} WalkCounts(host: UserId, f: Filter, cursor: Option<MeetingId>, views: seq<View>,
                                      id: MeetingId, key: Option<int>)
    requires TablesOk(views) && Finishes(host, f, cursor, views) && Stays(host, f, id, key, views)
    ensures Times(Visited(host, f, cursor, views), id) + Leaps(host, f, cursor, views, id)
         == Backs(host, f, cursor, views, id) + if StillAhead(f, views[0].table, cursor, id) then 1 else 0
    decreases |views|
  {
    hide StillAhead;
    hide Matches;
    hide TablesOk;
    hide Stays;
    hide Finishes;
    hide Request;
    hide Keyed;
    hide EndedIsStamped;
    RowGoesOn(host, f, cursor, views, id, key);
    var page := Request(host, f, views[0], cursor).page;
    PageCounts(host, f, views[0], cursor, id);
    if page.nextCursor.Some? {
      WalkCounts(host, f, page.nextCursor, views[1..], id, key);
      TimesTogether(page.items, Visited(host, f, page.nextCursor, views[1..]), id);
    } else {
      assert page.items + [] == page.items;
    }
  }

  /**
   * Exactly how often a walk that reaches the end lists a row that matches under an unchanged key throughout,
   * whatever happens to the others: once, if as many anchors have come back from past the row as have leapt
   * over it.
   */
  lemma {:induction false} StableRowIsVisitedOnceIff(host: UserId, f: Filter, views: seq<View>,
      id: MeetingId, key: Option<int>)
    requires TablesOk(views) && Finishes(host, f, None, views) && Stays(host, f, id, key, views)
    ensures VisitedOnce(Visited(host, f, None, views), id)
       <==> Backs(host, f, None, views, id) == Leaps(host, f, None, views, id)
    ensures Times(Visited(host, f, None, views), id) + Leaps(host, f, None, views, id)
         == Backs(host, f, None, views, id) + 1
  {
    WalkCounts(host, f, None, views, id, key);
  }

  /** A row is at the same place in the order as long as both keys stand. */
  lemma SamePlaces(f: Filter, a: Meeting, b: Meeting, x: Meeting, y: Meeting)
    requires a.id == b.id && Key(f, a) == Key(f, b) && x.id == y.id && Key(f, x) == Key(f, y)
    ensures Precedes(f, a, x) <==> Precedes(f, b, y)
  {
    SamePlace(f, a, b, x);
    SamePlace(f, x, y, b);
    hide Precedes;
  }

  /** Anchors that keep their keys stay where they are. */
  lemma {:induction false} HeldAnchorsStayPut(host: UserId, f: Filter, cursor: Option<MeetingId>, views: seq<View>,
                                              id: MeetingId, key: Option<int>)
    requires TablesOk(views) && AnchorsHold(host, f, cursor, views) && Stays(host, f, id, key, views)
    ensures Backs(host, f, cursor, views, id) == 0 && Leaps(host, f, cursor, views, id) == 0
    decreases |views|
  {
    hide Precedes;
    hide Matches;
    hide Request;
    hide Key;
    hide EndedIsStamped;
    if |views| > 1 && Request(host, f, views[0], cursor).Listed? {
      var next := Request(host, f, views[0], cursor).page.nextCursor;
      if next.Some? {
        assert views[1..][0] == views[1];
        SamePlaces(f, views[0].table[next.value], views[1].table[next.value],
                   views[0].table[id], views[1].table[id]);
        HeldAnchorsStayPut(host, f, next, views[1..], id, key);
      }
    }
  }

  /**
   * So a walk that reaches the end visits every row that matches with an unchanged key throughout, exactly
   * once, whatever is inserted or changed between its pages and even if an anchor stops matching.
   */
  lemma {:induction false} StableRowIsVisitedOnce(host: UserId, f: Filter, views: seq<View>,
      id: MeetingId, key: Option<int>)
    requires TablesOk(views) && AnchorsHold(host, f, None, views) && Finishes(host, f, None, views)
    requires Stays(host, f, id, key, views)
    ensures VisitedOnce(Visited(host, f, None, views), id)
  {
    hide AnchorsHold;
    hide Visited;
    hide Finishes;
    hide Stays;
    hide TablesOk;
    HeldAnchorsStayPut(host, f, None, views, id, key);
    StableRowIsVisitedOnceIff(host, f, views, id, key);
  }

  // --- Termination, and the walk over a table that stands still --------------------------------------------

  /** The rows of `base` that come after the cursor; all of them before the first page. */
  function Ahead(f: Filter, base: Table, cursor: Option<MeetingId>): set<MeetingId>
    requires cursor.Some? ==> cursor.value in base && Key(f, base[cursor.value]).Some?
  {
    set id | id in base && (cursor.Some? ==> Follows(f, base[cursor.value], base[id]))
  }

  lemma FollowsTransitively(f: Filter, a: Meeting, b: Meeting, c: Meeting)
    requires Key(f, a).Some? && Key(f, b).Some? && Follows(f, a, b) && Follows(f, b, c)
    ensures Follows(f, a, c)
  {
  }

  /** Only key and id count for the cursor's condition. */
  lemma FollowsSamePlace(f: Filter, a: Meeting, b: Meeting, x: Meeting, y: Meeting)
    requires a.id == b.id && Key(f, a) == Key(f, b) && x.id == y.id && Key(f, x) == Key(f, y) && Key(f, a).Some?
    ensures Follows(f, a, x) <==> Follows(f, b, y)
  {
  }

  /** Row `id` of `table` is a row of `base` under the same key. */
  predicate SameKey(f: Filter, base: Table, table: Table, id: MeetingId) {
    id in base && id in table && Key(f, table[id]) == Key(f, base[id])
  }

  /** A listed row of a later view that comes after a row of `base` was itself there, under the same key. */
  ghost predicate NothingNewAhead(host: UserId, f: Filter, base: Table, views: seq<View>) {
    forall k, id, a ::
      0 <= k < |views| && id in views[k].table && Matches(f, host, views[k].now, views[k].table[id])
      && a in base && Key(f, base[a]).Some? && Follows(f, base[a], views[k].table[id])
      ==> SameKey(f, base, views[k].table, id)
  }

  /** The walk stands at a row of `base`, or at its beginning with nothing listed but rows of `base`. */
  ghost predicate StandsAt(host: UserId, f: Filter, base: Table, cursor: Option<MeetingId>, v: View) {
    if cursor.Some? then
      cursor.value in base && Key(f, base[cursor.value]).Some? && SameKey(f, base, v.table, cursor.value)
    else
      forall id :: id in v.table && Matches(f, host, v.now, v.table[id]) ==> SameKey(f, base, v.table, id)
  }

  /** A page with a successor ends at a row of `base`, and leaves fewer rows ahead. */
  lemma FewerRowsAhead(host: UserId, f: Filter, base: Table, views: seq<View>, cursor: Option<MeetingId>)
    requires views != [] && TablesOk(views) && Keyed(base)
    requires NothingNewAhead(host, f, base, views) && StandsAt(host, f, base, cursor, views[0])
    requires Request(host, f, views[0], cursor).Listed?
    requires Request(host, f, views[0], cursor).page.nextCursor.Some?
    ensures var next := Request(host, f, views[0], cursor).page.nextCursor;
            && SameKey(f, base, views[0].table, next.value) && Key(f, base[next.value]).Some?
            && Ahead(f, base, next) < Ahead(f, base, cursor)
  {
    hide Precedes;
    hide Matches;
    hide Follows;
    hide Key;
    hide Rows;
    var v := views[0];
    var after := if cursor.Some? then Some(v.table[cursor.value]) else None;
    var rows := Rows(v.table, f, host, v.now, after);
    RowsHold(v.table, f, host, v.now, after);
    var last := rows[Clamped(v.limit) - 1];
    assert last in rows;
    MatchesHasKey(f, host, v.now, v.table, last.id);
    if cursor.Some? {
      var c := cursor.value;
      FollowsSamePlace(f, v.table[c], base[c], last, last);
      assert SameKey(f, base, v.table, last.id);
      FollowsSamePlace(f, base[c], base[c], last, base[last.id]);
    }
    assert SameKey(f, base, v.table, last.id);
    FollowsIsPrecedes(f, base[last.id], base[last.id]);
    PrecedesIsIrreflexive(f, base[last.id]);
    assert last.id in Ahead(f, base, cursor) && last.id !in Ahead(f, base, Some(last.id));
    forall id | id in Ahead(f, base, Some(last.id)) ensures id in Ahead(f, base, cursor) {
      if cursor.Some? { FollowsTransitively(f, base[cursor.value], base[last.id], base[id]); }
    }
  }

  /** While nothing new comes up ahead, a walk ends within one request more than there are rows ahead. */
  lemma {:induction false} WalkEnds(host: UserId, f: Filter, base: Table, cursor: Option<MeetingId>, views: seq<View>)
    requires views != [] && TablesOk(views) && Keyed(base) && Refusing(f).None?
    requires AnchorsHold(host, f, cursor, views)
    requires NothingNewAhead(host, f, base, views) && StandsAt(host, f, base, cursor, views[0])
    requires |views| > |Ahead(f, base, cursor)|
    ensures Finishes(host, f, cursor, views)
    decreases |views|
  {
    hide Ahead;
    hide Key;
    hide Keyed;
    hide EndedIsStamped;
    hide Rows;
    hide PageOf;
    hide Follows;
    var response := Request(host, f, views[0], cursor);
    assert response.Listed?;
    if response.page.nextCursor.Some? {
      hide Request;
      var next := response.page.nextCursor;
      FewerRowsAhead(host, f, base, views, cursor);
      ProperSubsetIsSmaller(Ahead(f, base, next), Ahead(f, base, cursor));
      assert views[1..][0] == views[1];
      WalkEnds(host, f, base, next, views[1..]);
    }
  }

  /** No row comes or goes and no key changes; anything else about the rows may, and so may the clock. */
  ghost predicate KeysStand(f: Filter, views: seq<View>) {
    forall k :: 0 <= k < |views| ==>
      && views[k].table.Keys == views[0].table.Keys
      && forall id :: id in views[0].table ==> Key(f, views[k].table[id]) == Key(f, views[0].table[id])
  }

  lemma {:induction false} StandingAnchorsHold(host: UserId, f: Filter, cursor: Option<MeetingId>, views: seq<View>)
    requires TablesOk(views) && KeysStand(f, views)
    ensures AnchorsHold(host, f, cursor, views)
    decreases |views|
  {
    hide Key;
    hide Keyed;
    hide Matches;
    hide Precedes;
    hide EndedIsStamped;
    if views != [] && Request(host, f, views[0], cursor).Listed? {
      var page := Request(host, f, views[0], cursor).page;
      hide Request;
      PageHolds(host, f, views[0], cursor);
      if page.nextCursor.Some? && |views| > 1 {
        assert page.items[|page.items| - 1] in page.items;
        assert views[1..][0] == views[1];
        StandingAnchorsHold(host, f, page.nextCursor, views[1..]);
      }
    }
  }

  /** When insertions have stopped, a walk ends within one request more than there are rows ahead. */
  lemma {:induction false} WalkTerminates(host: UserId, f: Filter, cursor: Option<MeetingId>, views: seq<View>)
    requires views != [] && TablesOk(views) && KeysStand(f, views) && Refusing(f).None?
    requires cursor.Some? ==> cursor.value in views[0].table && Key(f, views[0].table[cursor.value]).Some?
    requires |views| > |Ahead(f, views[0].table, cursor)|
    ensures Finishes(host, f, cursor, views)
  {
    hide Key;
    hide Follows;
    hide Matches;
    StandingAnchorsHold(host, f, cursor, views);
    WalkEnds(host, f, views[0].table, cursor, views);
  }

  /** Whatever happened before insertions stopped, a walk still under way then has as many requests to go. */
  lemma {:induction false} WalkTerminatesOnceInsertionsStop(host: UserId, f: Filter, cursor: Option<MeetingId>,
                                                            views: seq<View>, j: nat)
    requires j < |views| && TablesOk(views) && AnchorsHold(host, f, cursor, views) && Refusing(f).None?
    requires cursor.Some? ==> cursor.value in views[0].table && Key(f, views[0].table[cursor.value]).Some?
    requires KeysStand(f, views[j..]) && |views| - j > |views[j].table|
    ensures Finishes(host, f, cursor, views)
    decreases j
  {
    hide Key;
    hide Follows;
    hide Matches;
    hide Rows;
    hide EndedIsStamped;
    if j == 0 {
      assert views[0..] == views;
      SubsetIsNoLarger(Ahead(f, views[0].table, cursor), views[0].table.Keys);
      WalkTerminates(host, f, cursor, views);
    } else {
      var response := Request(host, f, views[0], cursor);
      assert response.Listed?;
      if response.page.nextCursor.Some? {
        hide Request;
        var page := response.page;
        PageHolds(host, f, views[0], cursor);
        assert page.items[|page.items| - 1] in page.items;
        assert views[1..][0] == views[1] && views[1..][j - 1] == views[j] && views[1..][j - 1..] == views[j..];
        WalkTerminatesOnceInsertionsStop(host, f, page.nextCursor, views[1..], j - 1);
      }
    }
  }

  lemma SubsetIsNoLarger<T>(a: set<T>, b: set<T>)
    requires a <= b
    ensures |a| <= |b|
  {
    assert b == a + (b - a);
  }

  lemma ProperSubsetIsSmaller<T>(a: set<T>, b: set<T>)
    requires a < b
    ensures |a| < |b|
  {
    var x :| x in b && x !in a;
    assert b == a + (b - a);
    assert x in b - a;
  }

  /** Two sorted listings of the same rows are the same listing. */
  lemma {:induction false} SortedIsUnique(f: Filter, a: seq<Meeting>, b: seq<Meeting>)
    requires Sorted(f, a) && Sorted(f, b) && forall x :: x in a <==> x in b
    ensures a == b
  {
    hide Precedes;
    SomebodyIn(b);
    if a != [] {
      assert a[0] in a;
      var j :| 0 <= j < |b| && b[j] == a[0];
      assert b[0] in b;
      var i :| 0 <= i < |a| && a[i] == b[0];
      if i > 0 && j > 0 {
        PrecedesIsTransitive(f, a[0], b[0], a[0]);
        PrecedesIsIrreflexive(f, a[0]);
      }
      assert a[0] == b[0];
      TailOccurs(f, a);
      TailOccurs(f, b);
      SortedIsUnique(f, a[1..], b[1..]);
    }
  }

  lemma TailOccurs(f: Filter, a: seq<Meeting>)
    requires Sorted(f, a) && a != []
    ensures forall x :: x in a[1..] <==> x in a && x != a[0]
  {
    hide Precedes;
    PrecedesIsIrreflexive(f, a[0]);
    forall x | x in a && x != a[0] ensures x in a[1..] {
      var k :| 0 <= k < |a| && a[k] == x;
      assert a[1..][k - 1] == x;
    }
  }

  lemma RestHolds(table: Table, f: Filter, host: UserId, now: int, i: nat, x: Meeting)
    requires Keyed(table) && EndedIsStamped(table)
    requires 1 <= i <= |Rows(table, f, host, now, None)|
    ensures var rows := Rows(table, f, host, now, None);
            Key(f, rows[i - 1]).Some? && (x in Rows(table, f, host, now, Some(rows[i - 1])) <==> x in rows[i..])
  {
    hide Precedes;
    hide Matches;
    hide Follows;
    hide Key;
    var rows := Rows(table, f, host, now, None);
    RowsHold(table, f, host, now, None);
    var anchor := rows[i - 1];
    assert anchor in rows;
    MatchesHasKey(f, host, now, table, anchor.id);
    RowsHold(table, f, host, now, Some(anchor));
    hide Rows;
    if x in rows {
      var k :| 0 <= k < |rows| && rows[k] == x;
      MatchesHasKey(f, host, now, table, x.id);
      FollowsIsPrecedes(f, anchor, x);
      PrecedesIsIrreflexive(f, anchor);
      if k < i - 1 {
        if Precedes(f, anchor, x) { PrecedesIsTransitive(f, anchor, x, anchor); }
      }
      if x in rows[i..] {
        var j :| 0 <= j < |rows| - i && rows[i..][j] == x;
        assert rows[i + j] == x;
      }
      if k >= i { assert rows[i..][k - i] == x; }
    }
  }

  /** Resuming after the row at `i - 1` lists the rows from `i` on. */
  lemma ResumingListsTheRest(table: Table, f: Filter, host: UserId, now: int, i: nat)
    requires Keyed(table) && EndedIsStamped(table)
    requires 1 <= i <= |Rows(table, f, host, now, None)|
    ensures var rows := Rows(table, f, host, now, None);
            Key(f, rows[i - 1]).Some? && Rows(table, f, host, now, Some(rows[i - 1])) == rows[i..]
  {
    hide Precedes;
    hide Matches;
    hide Follows;
    hide Key;
    var rows := Rows(table, f, host, now, None);
    RowsHold(table, f, host, now, None);
    var anchor := rows[i - 1];
    assert anchor in rows;
    MatchesHasKey(f, host, now, table, anchor.id);
    var rest := Rows(table, f, host, now, Some(anchor));
    RowsHold(table, f, host, now, Some(anchor));
    hide Rows;
    forall x ensures x in rest <==> x in rows[i..] { RestHolds(table, f, host, now, i, x); }
    SortedIsUnique(f, rest, rows[i..]);
  }

  /** The cursor under which a walk resumes at row `i`. */
  function ResumeAt(rows: seq<Meeting>, i: nat): Option<MeetingId>
    requires i <= |rows|
  {
    if i == 0 then None else Some(rows[i - 1].id)
  }

  lemma PageAt(host: UserId, f: Filter, v: View, i: nat)
    requires Keyed(v.table) && EndedIsStamped(v.table) && Refusing(f).None?
    requires i <= |Rows(v.table, f, host, v.now, None)|
    ensures var rows := Rows(v.table, f, host, v.now, None);
            Request(host, f, v, ResumeAt(rows, i)) == Listed(PageOf(rows[i..], Clamped(v.limit)))
  {
    var rows := Rows(v.table, f, host, v.now, None);
    RowsHold(v.table, f, host, v.now, None);
    if i > 0 {
      assert rows[i - 1] in rows;
      ResumingListsTheRest(v.table, f, host, v.now, i);
    }
    hide Rows;
    hide Sorted;
    hide Matches;
    assert rows[0..] == rows;
  }

  /** On a table and clock that stand still, the pages put together are the whole sorted listing. */
  lemma {:induction false} FixedWalkIsTheListing(host: UserId, f: Filter, table: Table,
      now: int, i: nat, views: seq<View>)
    requires Keyed(table) && EndedIsStamped(table) && Refusing(f).None?
    requires forall k :: 0 <= k < |views| ==> views[k].table == table && views[k].now == now
    requires i <= |Rows(table, f, host, now, None)|
    requires Finishes(host, f, ResumeAt(Rows(table, f, host, now, None), i), views)
    ensures Visited(host, f, ResumeAt(Rows(table, f, host, now, None), i), views) ==
        Rows(table, f, host, now, None)[i..]
    decreases |views|
  {
    hide Rows;
    hide Request;
    hide Clamped;
    var rows := Rows(table, f, host, now, None);
    var n := Clamped(views[0].limit);
    PageAt(host, f, views[0], i);
    if |rows| - i > n {
      assert rows[i..][n - 1] == rows[i + n - 1];
      FixedWalkIsTheListing(host, f, table, now, i + n, views[1..]);
      assert rows[i..] == rows[i..][..n] + rows[i + n..];
    }
  }

  lemma SomebodyIn(ms: seq<Meeting>)
    ensures ms != [] ==> exists x :: x in ms
  {
    if ms != [] { assert ms[0] in ms; }
  }

  /** So enough requests on a table and clock that stand still collect the whole sorted listing. */
  lemma {:induction false} EnoughRequestsListEverything(host: UserId, f: Filter,
      table: Table, now: int, views: seq<View>)
    requires Keyed(table) && EndedIsStamped(table) && Refusing(f).None?
    requires forall k :: 0 <= k < |views| ==> views[k].table == table && views[k].now == now
    requires |views| > |table|
    ensures Visited(host, f, None, views) == Rows(table, f, host, now, None)
  {
    hide Rows;
    hide Visited;
    hide Finishes;
    hide Request;
    hide AnchorsHold;
    SubsetIsNoLarger(Ahead(f, table, None), table.Keys);
    WalkTerminates(host, f, None, views);
    FixedWalkIsTheListing(host, f, table, now, 0, views);
    assert Rows(table, f, host, now, None)[0..] == Rows(table, f, host, now, None);
  }
}
