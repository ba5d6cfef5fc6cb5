// The list of recently used meeting ids: five at most, newest first, kept in a storage that may
// be missing, broken, read-only or written by somebody else.

module RecentIds {
  import opened Model

  const MAX_RECENT: nat := 5

  /** What the storage holds under the key. */
  datatype Stored = Absent | Unreadable | List(items: seq<Item>)

  datatype Item = Text(text: string) | SomethingElse

  /** Whether there is a window, whether reading works and whether writing works, at one call. */
  datatype Access = Access(window: bool, readable: bool, writable: bool)

  const WORKING: Access := Access(true, true, true)

  /** Digits only. */
  function Normalized(s: string): (r: string)
    ensures forall c :: c in r ==> '0' <= c <= '9'
  {
    if s == "" then ""
    else if '0' <= s[0] <= '9' then [s[0]] + Normalized(s[1..])
    else Normalized(s[1..])
  }

  predicate IsId(s: string) {
    s != "" && forall c :: c in s ==> '0' <= c <= '9'
  }

  lemma {:induction false} IdsAreNormal(s: string)
    requires forall c :: c in s ==> '0' <= c <= '9'
    ensures Normalized(s) == s
  {
    if s != "" {
      assert s[0] in s;
      assert forall c :: c in s[1..] ==> c in s;
      IdsAreNormal(s[1..]);
    }
  }

  function Ids(items: seq<Item>): seq<string> {
    if items == [] then []
    else if items[0].Text? && Normalized(items[0].text) != "" then [Normalized(items[0].text)] + Ids(items[1..])
    else Ids(items[1..])
  }

  function First(n: nat, ids: seq<string>): seq<string> {
    if |ids| <= n then ids else ids[..n]
  }

  function Without(ids: seq<string>, id: string): (r: seq<string>)
    ensures forall x :: x in r <==> x in ids && x != id
    ensures |r| <= |ids|
  {
    if ids == [] then []
    else if ids[0] == id then Without(ids[1..], id)
    else [ids[0]] + Without(ids[1..], id)
  }

  /** Every failure to read is an empty list. */
  function Read(stored: Stored, access: Access): seq<string> {
    if !access.window || !access.readable || !stored.List? then [] else First(MAX_RECENT, Ids(stored.items))
  }

  /** `cached` is the snapshot handed to the components; `watching` counts the subscriptions. */
  datatype Recent = Recent(stored: Stored, cached: Option<seq<string>>, watching: nat)

  const EMPTY: Recent := Recent(Absent, None, 0)

  function AsItems(ids: seq<string>): seq<Item> {
    if ids == [] then [] else [Text(ids[0])] + AsItems(ids[1..])
  }

  function Promoted(ids: seq<string>, id: string): seq<string> {
    First(MAX_RECENT, [id] + Without(ids, id))
  }

  function Remember(s: Recent, number: string, access: Access): Recent {
    var id := Normalized(number);
    if id == "" then s
    else
      var next := Promoted(Read(s.stored, access), id);
      s.(stored := if access.window && access.writable then List(AsItems(next)) else s.stored, cached := Some(next))
  }

  function Snapshot(s: Recent, access: Access): Recent {
    if s.cached.Some? then s else s.(cached := Some(Read(s.stored, access)))
  }

  /** Another tab wrote the key; a subscriber drops the snapshot. */
  function WrittenElsewhere(s: Recent, stored: Stored): Recent {
    if s.watching > 0 then s.(stored := stored, cached := None) else s.(stored := stored)
  }

  /** Another tab emptied the whole storage: the event names no key, so no subscriber takes notice. */
  function ClearedElsewhere(s: Recent): Recent {
    s.(stored := Absent)
  }

  /** Of a text with digits and anything else, the digits are kept, in order. */
  lemma {:induction false} DigitsAreKept(a: string, b: string, c: char)
    ensures Normalized(a + b) == Normalized(a) + Normalized(b)
    ensures Normalized([c]) == if '0' <= c <= '9' then [c] else ""
  {
    if a == "" {
      assert a + b == b;
    } else {
      assert (a + b)[1..] == a[1..] + b;
      DigitsAreKept(a[1..], b, c);
    }
    assert [c][1..] == "";
  }

  /** Of a stored list, what is no text and what has no digit is skipped, and the rest kept in order. */
  lemma {:induction false} ItemsAreRead(a: seq<Item>, b: seq<Item>, i: Item)
    ensures Ids(a + b) == Ids(a) + Ids(b)
    ensures Ids([i]) == if i.Text? && Normalized(i.text) != "" then [Normalized(i.text)] else []
  {
    if a == [] {
      assert a + b == b;
    } else {
      assert (a + b)[1..] == a[1..] + b;
      ItemsAreRead(a[1..], b, i);
    }
    assert [i][1..] == [];
  }

  // --- Reading back ------------------------------------------------------------------------------

  lemma {:induction false} IdsAreIds(items: seq<Item>)
    ensures forall x :: x in Ids(items) ==> IsId(x)
  {
    if items != [] {
      IdsAreIds(items[1..]);
    }
  }

  /** Whatever the storage holds, what is read is at most five ids. */
  lemma ReadIsShortAndClean(stored: Stored, access: Access)
    ensures |Read(stored, access)| <= MAX_RECENT
    ensures forall x :: x in Read(stored, access) ==> IsId(x)
  {
    if stored.List? { IdsAreIds(stored.items); }
  }

  lemma {:induction false} ItemsReadBack(ids: seq<string>)
    requires forall x :: x in ids ==> IsId(x)
    ensures Ids(AsItems(ids)) == ids
  {
    if ids != [] {
      assert ids[0] in ids;
      IdsAreNormal(ids[0]);
      ItemsReadBack(ids[1..]);
      assert AsItems(ids)[1..] == AsItems(ids[1..]);
    }
  }

  /** What a successful write stores is read back as it was. */
  lemma {:induction false} WrittenReadsBack(ids: seq<string>, access: Access)
    requires access.window && access.readable && |ids| <= MAX_RECENT && forall x :: x in ids ==> IsId(x)
    ensures Read(List(AsItems(ids)), access) == ids
  {
    ItemsReadBack(ids);
  }

  lemma {:induction false} PromotedIsClean(stored: Stored, access: Access, number: string)
    requires Normalized(number) != ""
    ensures var next := Promoted(Read(stored, access), Normalized(number));
            |next| <= MAX_RECENT && forall x :: x in next ==> IsId(x)
  {
    ReadIsShortAndClean(stored, access);
    var id := Normalized(number);
    var all := [id] + Without(Read(stored, access), id);
    forall x | x in First(MAX_RECENT, all) ensures IsId(x) {
      assert x in all;
    }
  }

  // --- The snapshot -----------------------------------------------------------------------------------

  /** The cached snapshot is what the storage would be read back as. */
  predicate Fresh(s: Recent, access: Access) {
    s.cached.Some? ==> s.cached.value == Read(s.stored, access)
  }

  /** Remembering leaves a fresh snapshot exactly when the write worked or had nothing to change. */
  lemma {:induction false} RememberIsFreshIff(s: Recent, number: string, access: Access)
    requires access.window && access.readable && Normalized(number) != ""
    ensures Fresh(Remember(s, number, access), access)
       <==> access.writable || Promoted(Read(s.stored, access), Normalized(number)) == Read(s.stored, access)
  {
    PromotedIsClean(s.stored, access, number);
    WrittenReadsBack(Promoted(Read(s.stored, access), Normalized(number)), access);
  }

  datatype Event =
    | Remembers(number: string)
    | Snapshots
    | ElsewhereWrites(stored: Stored)
    | ElsewhereClears
    | Subscribes
    | Unsubscribes

  function Happen(s: Recent, e: Event, access: Access): Recent {
    match e
    case Remembers(number) => Remember(s, number, access)
    case Snapshots => Snapshot(s, access)
    case ElsewhereWrites(stored) => WrittenElsewhere(s, stored)
    case ElsewhereClears => ClearedElsewhere(s)
    case Subscribes => s.(watching := s.watching + 1)
    case Unsubscribes => if s.watching > 0 then s.(watching := s.watching - 1) else s
  }

  /** An event, and whether writing works when it happens. */
  datatype Use = Use(event: Event, writable: bool)

  function Run(s: Recent, uses: seq<Use>): Recent {
    if uses == [] then s
    else
      var last := uses[|uses| - 1];
      Happen(Run(s, uses[..|uses| - 1]), last.event, WORKING.(writable := last.writable))
  }

  /** Nothing is read without a window, from a broken storage or where no list is stored; else the first ids are. */
  lemma WhatIsRead(stored: Stored, access: Access)
    ensures var ids := Read(stored, access);
            if access.window && access.readable && stored.List? then
              ids <= Ids(stored.items) && |ids| == if |Ids(stored.items)| < 5 then |Ids(stored.items)| else 5
            else ids == []
  {
    hide Ids;
  }

  /** What an event stores, what it leaves of the snapshot, and who watches after it. */
  lemma EventWrites(s: Recent, e: Event, access: Access)
    ensures var d, remembers := Happen(s, e, access), e.Remembers? && Normalized(e.number) != "";
            && d.stored == (match e
                            case Remembers(_) =>
                              if remembers && access.window && access.writable && d.cached.Some?
                              then List(AsItems(d.cached.value)) else s.stored
                            case ElsewhereWrites(stored) => stored
                            case ElsewhereClears => Absent
                            case _ => s.stored)
            && (remembers ==>
                  && d.cached.Some? && d.cached.value != [] && d.cached.value[0] == Normalized(e.number)
                  && forall x :: x in d.cached.value[1..] ==> x != Normalized(e.number) && x in Read(s.stored, access))
            && (!remembers ==>
                  d.cached == if e.ElsewhereWrites? && s.watching > 0 then None
                              else if e.Snapshots? && s.cached.None? then Some(Read(s.stored, access)) else s.cached)
            && d.watching == (if e.Subscribes? then s.watching + 1
                              else if e.Unsubscribes? && s.watching > 0 then s.watching - 1 else s.watching)
  {
    hide Read;
    hide AsItems;
    if e.Remembers? && Normalized(e.number) != "" {
      var id := Normalized(e.number);
      var all := [id] + Without(Read(s.stored, access), id);
      assert forall x :: x in First(MAX_RECENT, all)[1..] ==> x in all[1..];
    }
  }

  /** The event cannot make the snapshot stale: what it stores is seen, or is what is shown already. */
  predicate Harmless(s: Recent, e: Event, access: Access) {
    match e
    case Remembers(number) =>
      || Normalized(number) == "" || access.writable
      || Promoted(Read(s.stored, access), Normalized(number)) == Read(s.stored, access)
    case ElsewhereWrites(stored) => s.watching > 0 || s.cached.None? || s.cached.value == Read(stored, access)
    case ElsewhereClears => s.cached.None? || s.cached.value == []
    case _ => true
  }

  lemma HappenIsFreshIff(s: Recent, e: Event, access: Access)
    requires access.window && access.readable && Fresh(s, access)
    ensures Fresh(Happen(s, e, access), access) <==> Harmless(s, e, access)
  {
    hide Read;
    hide Promoted;
    match e {
      case Remembers(number) =>
        if Normalized(number) != "" { RememberIsFreshIff(s, number, access); }
      case ElsewhereClears => NothingStored(access);
      case _ =>
    }
  }

  lemma NothingStored(access: Access)
    ensures Read(Absent, access) == []
  {
  }

  ghost predicate FreshThroughout(s: Recent, uses: seq<Use>) {
    forall k :: 0 <= k <= |uses| ==> Fresh(Run(s, uses[..k]), WORKING)
  }

  ghost predicate HarmlessThroughout(s: Recent, uses: seq<Use>) {
    forall k :: 0 <= k < |uses| ==>
      Harmless(Run(s, uses[..k]), uses[k].event, WORKING.(writable := uses[k].writable))
  }

  lemma OneMoreUse(s: Recent, uses: seq<Use>)
    requires uses != []
    ensures var front, last := uses[..|uses| - 1], uses[|uses| - 1];
            && (FreshThroughout(s, uses) <==> FreshThroughout(s, front) && Fresh(Run(s, uses), WORKING))
            && (HarmlessThroughout(s, uses)
                <==> HarmlessThroughout(s, front)
                     && Harmless(Run(s, front), last.event, WORKING.(writable := last.writable)))
  {
    hide Run;
    hide Fresh;
    hide Harmless;
    var front := uses[..|uses| - 1];
    assert forall k :: 0 <= k <= |front| ==> front[..k] == uses[..k];
    assert uses[..|uses|] == uses && uses[..|front|] == front;
  }

  /** Whether writing works has no part in what is read. */
  lemma FreshToWriters(s: Recent, writable: bool)
    ensures Fresh(s, WORKING.(writable := writable)) == Fresh(s, WORKING)
  {
  }

  /**
   * The snapshot is what would be read back, at every point of a run in which writing works at some calls and
   * fails at others, exactly when no event of it is harmful: a failing write that had something to change, a
   * write from elsewhere nobody is subscribed to, a storage cleared elsewhere.
   */
  lemma {:induction false} SnapshotIsAlwaysFreshIff(s: Recent, uses: seq<Use>)
    requires Fresh(s, WORKING)
    ensures FreshThroughout(s, uses) <==> HarmlessThroughout(s, uses)
    decreases |uses|
  {
    hide Happen;
    hide Harmless;
    hide Fresh;
    if uses != [] {
      hide FreshThroughout;
      hide HarmlessThroughout;
      var front, last := uses[..|uses| - 1], uses[|uses| - 1];
      OneMoreUse(s, uses);
      SnapshotIsAlwaysFreshIff(s, front);
      FreshAtTheEnd(s, front);
      if FreshThroughout(s, front) {
        FreshToWriters(Run(s, front), last.writable);
        FreshToWriters(Run(s, uses), last.writable);
        HappenIsFreshIff(Run(s, front), last.event, WORKING.(writable := last.writable));
      }
    }
  }

  lemma {:induction false} FreshAtTheEnd(s: Recent, uses: seq<Use>)
    ensures FreshThroughout(s, uses) ==> Fresh(Run(s, uses), WORKING)
  {
    hide Run;
    hide Fresh;
    assert uses[..|uses|] == uses;
  }

  // --- The five most recent ------------------------------------------------------------------------------

  /** Every id of a history once, the latest first: the list nobody truncates. */
  function Recency(history: seq<string>): seq<string> {
    if history == [] then []
    else [history[|history| - 1]] + Without(Recency(history[..|history| - 1]), history[|history| - 1])
  }

  ghost predicate Distinct(ids: seq<string>) {
    forall i, j :: 0 <= i < j < |ids| ==> ids[i] != ids[j]
  }

  function LastUse(history: seq<string>, id: string): int {
    if history == [] then -1
    else if history[|history| - 1] == id then |history| - 1
    else LastUse(history[..|history| - 1], id)
  }

  /** The position of an element of a filtered list in the list itself. */
  lemma {:induction false} WithoutKeepsOrder(ids: seq<string>, id: string, i: nat, j: nat)
    requires i < j < |Without(ids, id)|
    ensures exists a, b :: 0 <= a < b < |ids| && ids[a] == Without(ids, id)[i] && ids[b] == Without(ids, id)[j]
  {
    if ids[0] == id {
      WithoutKeepsOrder(ids[1..], id, i, j);
      var a, b :| 0 <= a < b < |ids| - 1 && ids[1..][a] == Without(ids, id)[i] && ids[1..][b] == Without(ids, id)[j];
      assert ids[a + 1] == Without(ids, id)[i] && ids[b + 1] == Without(ids, id)[j];
    } else if i == 0 {
      assert Without(ids, id)[j] in Without(ids[1..], id);
      var b :| 0 <= b < |ids| - 1 && ids[1..][b] == Without(ids, id)[j];
      assert ids[0] == Without(ids, id)[0] && ids[b + 1] == Without(ids, id)[j];
    } else {
      WithoutKeepsOrder(ids[1..], id, i - 1, j - 1);
      var rest := Without(ids[1..], id);
      var a, b :| 0 <= a < b < |ids| - 1 && ids[1..][a] == rest[i - 1] && ids[1..][b] == rest[j - 1];
      assert ids[a + 1] == Without(ids, id)[i] && ids[b + 1] == Without(ids, id)[j];
    }
  }

  lemma {:induction false} RecencyHoldsTheUsed(history: seq<string>)
    ensures forall x :: x in Recency(history) <==> x in history
  {
    if history != [] {
      var n := |history| - 1;
      RecencyHoldsTheUsed(history[..n]);
      assert history == history[..n] + [history[n]];
    }
  }

  /** One list orders another: earlier in the list means used later. */
  ghost predicate ByLastUse(ids: seq<string>, history: seq<string>) {
    forall i, j :: 0 <= i < j < |ids| ==> LastUse(history, ids[i]) > LastUse(history, ids[j])
  }

  lemma {:induction false} LatestStaysFirst(before: seq<string>, history: seq<string>, last: string, i: nat, j: nat)
    requires ByLastUse(before, history) && i < j < |[last] + Without(before, last)|
    ensures var r := [last] + Without(before, last);
            LastUse(history + [last], r[i]) > LastUse(history + [last], r[j])
  {
    var r := [last] + Without(before, last);
    assert (history + [last])[..|history|] == history;
    assert r[j] in Without(before, last);
    LastUseIsEarlier(history, r[j]);
    if i > 0 {
      WithoutKeepsOrder(before, last, i - 1, j - 1);
      assert r[i] in Without(before, last);
    }
  }

  /** The untruncated list holds exactly the used ids, each once, in order of last use. */
  lemma {:induction false} RecencyIsByLastUse(history: seq<string>)
    ensures Distinct(Recency(history))
    ensures forall x :: x in Recency(history) <==> x in history
    ensures ByLastUse(Recency(history), history)
  {
    RecencyHoldsTheUsed(history);
    if history != [] {
      var n := |history| - 1;
      RecencyIsByLastUse(history[..n]);
      assert history == history[..n] + [history[n]];
      var r := Recency(history);
      forall i, j | 0 <= i < j < |r| ensures LastUse(history, r[i]) > LastUse(history, r[j]) {
        LatestStaysFirst(Recency(history[..n]), history[..n], history[n], i, j);
      }
    }
  }

  lemma {:induction false} LastUseIsEarlier(history: seq<string>, id: string)
    ensures LastUse(history, id) < |history|
  {
    if history != [] {
      LastUseIsEarlier(history[..|history| - 1], id);
    }
  }

  lemma {:induction false} WithoutOfAbsent(ids: seq<string>, id: string)
    requires id !in ids
    ensures Without(ids, id) == ids
  {
    if ids != [] {
      assert ids[0] in ids;
      WithoutOfAbsent(ids[1..], id);
    }
  }

  lemma FirstOfOneMore(n: nat, id: string, rest: seq<string>)
    requires n > 0
    ensures First(n, [id] + rest) == [id] + First(n - 1, rest)
  {
  }

  /** Dropping one id from a list without repetitions costs a prefix at most one place. */
  lemma {:induction false} WithoutCommutesWithFirst(n: nat, ids: seq<string>, id: string)
    requires Distinct(ids)
    ensures First(n, Without(First(n + 1, ids), id)) == First(n, Without(ids, id))
    decreases |ids|
  {
    if |ids| > n + 1 {
      var rest := ids[1..];
      assert ids[..n + 1][1..] == rest[..n];
      if ids[0] == id {
        assert id !in rest && id !in rest[..n];
        WithoutOfAbsent(rest, id);
        WithoutOfAbsent(rest[..n], id);
      } else if n > 0 {
        WithoutCommutesWithFirst(n - 1, rest, id);
        FirstOfOneMore(n, ids[0], Without(rest[..n], id));
        FirstOfOneMore(n, ids[0], Without(rest, id));
        assert Without(ids[..n + 1], id) == [ids[0]] + Without(rest[..n], id);
        assert First(n, rest) == rest[..n];
      }
    }
  }

  /** Truncation commutes with moving to the front. */
  lemma {:induction false} PromotionCommutes(ids: seq<string>, id: string)
    requires Distinct(ids)
    ensures Promoted(First(MAX_RECENT, ids), id) == First(MAX_RECENT, [id] + Without(ids, id))
  {
    WithoutCommutesWithFirst(4, ids, id);
  }

  /** The ids a sequence of calls used; a call without a digit uses none. */
  function Used(numbers: seq<string>): seq<string> {
    if numbers == [] then []
    else
      var last := Normalized(numbers[|numbers| - 1]);
      Used(numbers[..|numbers| - 1]) + if last == "" then [] else [last]
  }

  function RememberAll(s: Recent, numbers: seq<string>): Recent {
    if numbers == [] then s else Remember(RememberAll(s, numbers[..|numbers| - 1]), numbers[|numbers| - 1], WORKING)
  }

  lemma {:induction false} UsedOneMore(numbers: seq<string>)
    requires numbers != []
    ensures var used, id := Used(numbers[..|numbers| - 1]), Normalized(numbers[|numbers| - 1]);
            Recency(Used(numbers)) == if id == "" then Recency(used) else [id] + Without(Recency(used), id)
  {
    var used, id := Used(numbers[..|numbers| - 1]), Normalized(numbers[|numbers| - 1]);
    assert used + [] == used;
    assert (used + [id])[..|used|] == used;
  }

  /**
   * After any calls from an empty, working store, the list is the five most recently used distinct
   * ids, newest first.
   */
  lemma {:induction false} TheFiveMostRecent(numbers: seq<string>)
    ensures Read(RememberAll(EMPTY, numbers).stored, WORKING) == First(MAX_RECENT, Recency(Used(numbers)))
  {
    hide Used;
    hide Recency;
    hide Promoted;
    hide First;
    hide Read;
    if numbers == [] {
      NothingUsedYet();
    } else {
      var n := |numbers| - 1;
      var before := RememberAll(EMPTY, numbers[..n]);
      var id := Normalized(numbers[n]);
      TheFiveMostRecent(numbers[..n]);
      UsedOneMore(numbers);
      if id != "" {
        RecencyIsByLastUse(Used(numbers[..n]));
        PromotionCommutes(Recency(Used(numbers[..n])), id);
        PromotedIsClean(before.stored, WORKING, numbers[n]);
        WrittenReadsBack(Promoted(Read(before.stored, WORKING), id), WORKING);
      }
    }
  }

  lemma NothingUsedYet()
    ensures Read(EMPTY.stored, WORKING) == First(MAX_RECENT, Recency(Used([])))
  {
  }

  // --- The module's variables as an object -------------------------------------------------------------------

  /** A set in insertion order. */
  function Joined(listeners: seq<nat>, l: nat): seq<nat> {
    if l in listeners then listeners else listeners + [l]
  }

  function Dropped(listeners: seq<nat>, l: nat): (r: seq<nat>)
    ensures |r| == if l in listeners then |listeners| - 1 else |listeners|
  {
    if listeners == [] then []
    else if listeners[0] == l then listeners[1..]
    else [listeners[0]] + Dropped(listeners[1..], l)
  }

  /** `watchers` are the storage handlers, one for each subscription; `notified` the calls made to listeners. */
  class RecentList {
    var stored: Stored
    var cached: array?<string>
    var listeners: seq<nat>
    var watchers: seq<nat>
    var notified: seq<nat>

    constructor ()
      ensures View() == EMPTY && listeners == [] && notified == []
    {
      stored, cached, listeners, watchers, notified := Absent, null, [], [], [];
    }

    function View(): Recent
      reads this, cached
    {
      Recent(stored, if cached == null then None else Some(cached[..]), |watchers|)
    }

    method RememberId(number: string, access: Access) returns (list: seq<string>)
      modifies this
      ensures View() == Remember(old(View()), number, access)
      ensures list == if Normalized(number) == "" then Read(old(stored), access)
                      else Promoted(Read(old(stored), access), Normalized(number))
      ensures Normalized(number) == "" ==> cached == old(cached) && notified == old(notified)
      ensures Normalized(number) != "" ==> fresh(cached) && notified == old(notified) + listeners
      ensures listeners == old(listeners)
    {
      var id := Normalized(number);
      if id == "" { return Read(stored, access); }
      list := Promoted(Read(stored, access), id);
      if access.window && access.writable {
        stored := List(AsItems(list));
      }
      cached := new string[|list|](i requires 0 <= i < |list| => list[i]);
      assert cached[..] == list;
      for i := 0 to |listeners|
        invariant listeners == old(listeners) && watchers == old(watchers)
        invariant notified == old(notified) + listeners[..i]
        invariant cached != null && fresh(cached) && cached[..] == list
        invariant stored == if access.window && access.writable then List(AsItems(list)) else old(stored)
      {
        notified := notified + [listeners[i]];
      }
    }

    /** The same array again and again, until something was remembered here or written elsewhere. */
    method SnapshotOf(access: Access) returns (shown: array<string>)
      modifies this`cached
      ensures View() == Snapshot(old(View()), access)
      ensures cached == shown && Some(shown[..]) == View().cached
      ensures old(cached) != null ==> shown == old(cached)
    {
      if cached == null {
        var list := Read(stored, access);
        cached := new string[|list|](i requires 0 <= i < |list| => list[i]);
        assert cached[..] == list;
      }
      shown := cached;
    }

    /** A storage event for the key: every handler drops the snapshot and calls its listener. */
    method OnStorage(content: Stored)
      modifies this
      ensures View() == WrittenElsewhere(old(View()), content)
      ensures listeners == old(listeners) && notified == old(notified) + watchers
    {
      stored := content;
      for i := 0 to |watchers|
        invariant listeners == old(listeners) && watchers == old(watchers) && stored == content
        invariant notified == old(notified) + watchers[..i]
        invariant if i > 0 then cached == null else cached == old(cached)
      {
        cached := null;
        notified := notified + [watchers[i]];
      }
    }

    /** A storage event without a key: every handler looks at it and turns away. */
    method OnStorageCleared()
      modifies this`stored
      ensures View() == ClearedElsewhere(old(View()))
    {
      stored := Absent;
    }

    method Subscribe(listener: nat)
      modifies this`listeners, this`watchers
      ensures View() == Happen(old(View()), Subscribes, WORKING)
      ensures listeners == Joined(old(listeners), listener)
    {
      listeners := Joined(listeners, listener);
      watchers := watchers + [listener];
    }

    /** What a subscription returns: it takes back the listener and its own handler. */
    method Unsubscribe(listener: nat)
      requires listener in watchers
      modifies this`listeners, this`watchers
      ensures View() == Happen(old(View()), Unsubscribes, WORKING)
      ensures listeners == Dropped(old(listeners), listener) && watchers == Dropped(old(watchers), listener)
    {
      listeners := Dropped(listeners, listener);
      watchers := Dropped(watchers, listener);
    }
  }
}
