// The room store as the object the components share: insertion-ordered maps that are replaced
// and never mutated once published, which is what makes the memoised selector sound.

module StoreObject {
  import opened Model
  import opened Protocol
  import opened MeetingStore

  // --- Insertion-ordered maps ---------------------------------------------------------------

  /** The values of a map keyed by their own ids, in insertion order. */
  type Entries = seq<RosterEntry>

  ghost predicate Distinct(es: Entries) {
    forall i, j :: 0 <= i < j < |es| ==> es[i].id != es[j].id
  }

  /** Setting a present key keeps its place; a new key goes last. */
  function Put(es: Entries, p: RosterEntry): Entries {
    if es == [] then [p]
    else if es[0].id == p.id then [p] + es[1..]
    else [es[0]] + Put(es[1..], p)
  }

  function Others(es: Entries, id: RowId): (r: Entries)
    ensures forall p :: p in r <==> p in es && p.id != id
  {
    if es == [] then []
    else if es[0].id == id then Others(es[1..], id)
    else [es[0]] + Others(es[1..], id)
  }

  function Only(es: Entries, id: RowId): (r: Entries)
    ensures forall p :: p in r <==> p in es && p.id == id
  {
    if es == [] then []
    else if es[0].id == id then [es[0]] + Only(es[1..], id)
    else Only(es[1..], id)
  }

  /** The last entry under each id, as a set of bindings. */
  function Contents(es: Entries): Roster {
    FromSnapshot(es)
  }

  function PutAll(es: Entries, more: Entries): Entries {
    if more == [] then es else Put(PutAll(es, more[..|more| - 1]), more[|more| - 1])
  }

  /** A key that is set again keeps its place, and a new one goes last. */
  lemma {:induction false} PutKeepsPlaces(es: Entries, p: RosterEntry, i: nat)
    ensures i < |es| && es[i].id == p.id && (forall j :: 0 <= j < i ==> es[j].id != p.id) ==> Put(es, p) == es[i := p]
    ensures (forall q :: q in es ==> q.id != p.id) ==> Put(es, p) == es + [p]
  {
    if es != [] && es[0].id != p.id {
      PutKeepsPlaces(es[1..], p, if i > 0 then i - 1 else 0);
      if i < |es| && es[i].id == p.id && forall j :: 0 <= j < i ==> es[j].id != p.id {
        assert forall j :: 0 <= j < i - 1 ==> es[1..][j] == es[j + 1];
      }
    }
  }

  lemma {:induction false} PutOccurs(es: Entries, p: RosterEntry)
    ensures forall q :: q in Put(es, p) ==> q == p || q in es
  {
    if es != [] && es[0].id != p.id {
      PutOccurs(es[1..], p);
    }
  }

  lemma {:induction false} PutKeepsDistinct(es: Entries, p: RosterEntry)
    requires Distinct(es)
    ensures Distinct(Put(es, p))
  {
    if es != [] && es[0].id != p.id {
      PutKeepsDistinct(es[1..], p);
      PutOccurs(es[1..], p);
      var rest := Put(es[1..], p);
      forall j | 0 <= j < |rest| ensures es[0].id != rest[j].id {
        assert rest[j] in rest;
        if rest[j] in es[1..] {
          var k :| 0 <= k < |es| - 1 && es[1..][k] == rest[j];
          assert es[k + 1] == rest[j];
        }
      }
    }
  }

  lemma {:induction false} ContentsFromFront(p: RosterEntry, es: Entries)
    ensures Contents([p] + es) == map[p.id := p] + Contents(es)
  {
    if es != [] {
      ContentsFromFront(p, es[..|es| - 1]);
      assert ([p] + es)[..|es|] == [p] + es[..|es| - 1];
    }
  }

  lemma {:induction false} AbsentIsUnbound(es: Entries, id: RowId)
    requires forall k :: 0 <= k < |es| ==> es[k].id != id
    ensures id !in Contents(es)
  {
    if es != [] {
      AbsentIsUnbound(es[..|es| - 1], id);
    }
  }

  /** Setting a key binds it and nothing else. */
  lemma {:induction false} PutBinds(es: Entries, p: RosterEntry)
    requires Distinct(es)
    ensures Contents(Put(es, p)) == Contents(es)[p.id := p]
  {
    if es == [] {
      assert [p][..0] == [];
    } else {
      assert es == [es[0]] + es[1..];
      ContentsFromFront(es[0], es[1..]);
      if es[0].id == p.id {
        ContentsFromFront(p, es[1..]);
        AbsentIsUnbound(es[1..], p.id);
      } else {
        PutBinds(es[1..], p);
        ContentsFromFront(es[0], Put(es[1..], p));
      }
    }
  }

  lemma {:induction false} OthersKeepsDistinct(es: Entries, id: RowId)
    requires Distinct(es)
    ensures Distinct(Others(es, id))
  {
    if es != [] {
      OthersKeepsDistinct(es[1..], id);
      var rest := Others(es[1..], id);
      forall j | 0 <= j < |rest| ensures es[0].id != rest[j].id {
        assert rest[j] in es[1..];
        var k :| 0 <= k < |es| - 1 && es[1..][k] == rest[j];
        assert es[k + 1] == rest[j];
      }
    }
  }

  /** Deleting a key unbinds it and nothing else. */
  lemma {:induction false} OthersUnbinds(es: Entries, id: RowId)
    ensures Contents(Others(es, id)) == Contents(es) - {id}
  {
    if es != [] {
      assert es == [es[0]] + es[1..];
      ContentsFromFront(es[0], es[1..]);
      OthersUnbinds(es[1..], id);
      if es[0].id != id {
        ContentsFromFront(es[0], Others(es[1..], id));
      }
    }
  }

  lemma {:induction false} PutAllBinds(more: Entries)
    ensures Distinct(PutAll([], more)) && Contents(PutAll([], more)) == FromSnapshot(more)
  {
    if more != [] {
      var n := |more| - 1;
      PutAllBinds(more[..n]);
      PutKeepsDistinct(PutAll([], more[..n]), more[n]);
      PutBinds(PutAll([], more[..n]), more[n]);
    }
  }

  lemma {:induction false} EntryIsBound(es: Entries, k: nat)
    requires Distinct(es) && k < |es|
    ensures es[k].id in Contents(es) && Contents(es)[es[k].id] == es[k]
  {
    var n := |es| - 1;
    if k < n {
      EntryIsBound(es[..n], k);
    }
  }

  // --- The order on screen ---------------------------------------------------------------------

  /** Everyone in the room: this client first, the rest as they came. */
  function Ordered(es: Entries, self: Option<RowId>): Entries {
    match self
    case None => es
    case Some(id) => Only(es, id) + Others(es, id)
  }

  /** Nobody is lost, nobody is shown twice. */
  lemma {:induction false} OrderedIsPermutation(es: Entries, self: Option<RowId>)
    ensures multiset(Ordered(es, self)) == multiset(es)
  {
    if self.Some? && es != [] {
      OrderedIsPermutation(es[1..], self);
      assert es == [es[0]] + es[1..];
      var id := self.value;
      assert multiset(Only(es, id) + Others(es, id)) == multiset(Only(es, id)) + multiset(Others(es, id));
      assert multiset(Only(es[1..], id) + Others(es[1..], id)) ==
          multiset(Only(es[1..], id)) + multiset(Others(es[1..], id));
    }
  }

  lemma {:induction false} AbsentSelfIsNotMoved(es: Entries, id: RowId)
    requires forall k :: 0 <= k < |es| ==> es[k].id != id
    ensures Only(es, id) == [] && Others(es, id) == es && Ordered(es, Some(id)) == es
  {
    if es != [] {
      AbsentSelfIsNotMoved(es[1..], id);
    }
  }

  /** The order spelled out: this client's entry is moved to the front and nothing else moves. */
  lemma {:induction false} SelfMovesToTheFront(es: Entries, k: nat)
    requires Distinct(es) && k < |es|
    ensures Only(es, es[k].id) == [es[k]] && Others(es, es[k].id) == es[..k] + es[k + 1..]
    ensures Ordered(es, Some(es[k].id)) == [es[k]] + (es[..k] + es[k + 1..])
  {
    if k == 0 {
      AbsentSelfIsNotMoved(es[1..], es[0].id);
      assert es[..0] + es[1..] == es[1..];
    } else {
      assert es[1..][k - 1] == es[k];
      SelfMovesToTheFront(es[1..], k - 1);
      assert es[..k] + es[k + 1..] == [es[0]] + (es[1..][..k - 1] + es[1..][k..]);
    }
  }

  // --- Chat messages -----------------------------------------------------------------------------

  datatype Message = Message(id: nat, body: nat)

  predicate Shown(messages: seq<Message>, id: nat) {
    exists i :: 0 <= i < |messages| && messages[i].id == id
  }

  /** The sender hears its own broadcast, so a message already shown is dropped. */
  function Appended(messages: seq<Message>, m: Message): seq<Message> {
    if Shown(messages, m.id) then messages else messages + [m]
  }

  function AppendedAll(messages: seq<Message>, more: seq<Message>): seq<Message> {
    if more == [] then messages else Appended(AppendedAll(messages, more[..|more| - 1]), more[|more| - 1])
  }

  /** Hearing any messages any number of times shows each id once, and loses none. */
  lemma {:induction false} EachMessageIsShownOnce(more: seq<Message>)
    ensures var shown := AppendedAll([], more);
            && (forall i, j :: 0 <= i < j < |shown| ==> shown[i].id != shown[j].id)
            && (forall m :: m in shown ==> m in more)
            && (forall i :: 0 <= i < |more| ==> Shown(shown, more[i].id))
  {
    if more != [] {
      var n := |more| - 1;
      EachMessageIsShownOnce(more[..n]);
      var before := AppendedAll([], more[..n]);
      var after := AppendedAll([], more);
      forall i | 0 <= i < |more| ensures Shown(after, more[i].id) {
        if i < n {
          assert more[..n][i] == more[i];
          var j :| 0 <= j < |before| && before[j].id == more[i].id;
          assert after[j].id == more[i].id;
        } else if !Shown(before, more[n].id) {
          assert after[|before|].id == more[n].id;
        }
      }
    }
  }

  // --- The store object ----------------------------------------------------------------------------

  class EntryMap {
    var entries: Entries

    constructor ()
      ensures entries == []
    {
      entries := [];
    }

    constructor Copy(other: EntryMap)
      ensures entries == other.entries
    {
      entries := other.entries;
    }

    method Set(p: RosterEntry)
      modifies this
      ensures entries == Put(old(entries), p)
    {
      entries := Put(entries, p);
    }

    method Delete(id: RowId)
      modifies this
      ensures entries == Others(old(entries), id)
    {
      entries := Others(entries, id);
    }

    method Get(id: RowId) returns (p: Option<RosterEntry>)
      requires Distinct(entries)
      ensures p == if id in Contents(entries) then Some(Contents(entries)[id]) else None
    {
      p := None;
      for i := 0 to |entries|
        invariant p.None? ==> forall k :: 0 <= k < i ==> entries[k].id != id
        invariant p.Some? ==> id in Contents(entries) && p.value == Contents(entries)[id]
      {
        EntryIsBound(entries, i);
        if entries[i].id == id { p := Some(entries[i]); }
      }
      if p.None? { AbsentIsUnbound(entries, id); }
    }
  }

  /**
   * Every action writes fields of the store only, so no map that was ever published changes; a
   * changed roster is always a new map.
   */
  class RoomStore {
    var participants: EntryMap
    var self: Option<RosterEntry>
    var isMuted: bool
    var isVideoOn: bool
    var messages: seq<Message>
    var cachedMap: EntryMap?
    var cachedSelfId: Option<RowId>
    var cachedResult: array<RosterEntry>

    ghost predicate Valid()
      reads this, participants, cachedMap, cachedResult
    {
      && Distinct(participants.entries)
      && (cachedMap != null ==> cachedResult[..] == Ordered(cachedMap.entries, cachedSelfId))
    }

    function SelfId(): Option<RowId>
      reads this
    {
      if self.Some? then Some(self.value.id) else None
    }

    function View(): Store
      reads this, participants
    {
      Store(Contents(participants.entries), self, isMuted, isVideoOn)
    }

    /** Neither the map nor the own id has changed since the last selection. */
    predicate Cached()
      reads this
    {
      cachedMap == participants && cachedSelfId == SelfId()
    }

    constructor ()
      ensures Valid() && View() == INITIAL && messages == [] && cachedMap == null && fresh(participants)
    {
      participants := new EntryMap();
      self, isMuted, isVideoOn, messages := None, false, true, [];
      cachedMap, cachedSelfId := null, None;
      cachedResult := new RosterEntry[0];
    }

    method SetRoomState(you: RosterEntry, entries: seq<RosterEntry>)
      requires Valid()
      modifies this
      ensures Valid() && View() == MeetingStore.SetRoomState(old(View()), you, entries)
      ensures fresh(participants) && participants.entries == PutAll([], entries)
      ensures messages == old(messages) && cachedResult == old(cachedResult) && cachedMap == old(cachedMap)
      ensures cachedSelfId == old(cachedSelfId)
    {
      var next := new EntryMap();
      for i := 0 to |entries|
        invariant fresh(next) && next.entries == PutAll([], entries[..i])
        modifies next
      {
        assert entries[..i + 1][..i] == entries[..i];
        next.Set(entries[i]);
      }
      assert entries[..|entries|] == entries;
      PutAllBinds(entries);
      participants, self, isMuted, isVideoOn := next, Some(you), you.flags.muted, you.flags.videoOn;
    }

    method UpsertParticipant(p: RosterEntry)
      requires Valid()
      modifies this
      ensures Valid() && View() == MeetingStore.UpsertParticipant(old(View()), p)
      ensures fresh(participants) && participants.entries == Put(old(participants.entries), p)
      ensures messages == old(messages) && cachedResult == old(cachedResult) && cachedMap == old(cachedMap)
      ensures cachedSelfId == old(cachedSelfId)
    {
      PutKeepsDistinct(participants.entries, p);
      PutBinds(participants.entries, p);
      var next := new EntryMap.Copy(participants);
      next.Set(p);
      participants := next;
    }

    method RemoveParticipant(id: RowId)
      requires Valid()
      modifies this
      ensures Valid() && View() == MeetingStore.RemoveParticipant(old(View()), id)
      ensures fresh(participants) && participants.entries == Others(old(participants.entries), id)
      ensures messages == old(messages) && cachedResult == old(cachedResult) && cachedMap == old(cachedMap)
      ensures cachedSelfId == old(cachedSelfId)
    {
      OthersKeepsDistinct(participants.entries, id);
      OthersUnbinds(participants.entries, id);
      var next := new EntryMap.Copy(participants);
      next.Delete(id);
      participants := next;
    }

    /** An unknown id publishes nothing: the map keeps its identity. */
    method PatchParticipant(id: RowId, change: Changes)
      requires Valid()
      modifies this
      ensures Valid() && View() == MeetingStore.PatchParticipant(old(View()), id, change)
      ensures id in old(Contents(participants.entries)) ==> fresh(participants)
      ensures id !in old(Contents(participants.entries)) ==> participants == old(participants)
      ensures SelfId() == old(SelfId())
      ensures messages == old(messages) && cachedResult == old(cachedResult) && cachedMap == old(cachedMap)
      ensures cachedSelfId == old(cachedSelfId)
    {
      var existing := participants.Get(id);
      if existing.None? { return; }
      BoundEntryKeepsId(participants.entries, id);
      var amended := Amended(existing.value, change);
      PutKeepsDistinct(participants.entries, amended);
      PutBinds(participants.entries, amended);
      var next := new EntryMap.Copy(participants);
      next.Set(amended);
      if self.Some? && self.value.id == id {
        self := Some(Amended(self.value, change));
      }
      participants := next;
    }

    method SetMuted(muted: bool)
      requires Valid()
      modifies this`isMuted
      ensures Valid() && View() == MeetingStore.SetMuted(old(View()), muted)
    {
      isMuted := muted;
    }

    method SetVideoOn(on: bool)
      requires Valid()
      modifies this`isVideoOn
      ensures Valid() && View() == MeetingStore.SetVideoOn(old(View()), on)
    {
      isVideoOn := on;
    }

    method AddMessage(m: Message)
      modifies this`messages
      ensures messages == Appended(old(messages), m)
    {
      for i := 0 to |messages|
        invariant forall k :: 0 <= k < i ==> messages[k].id != m.id
      {
        if messages[i].id == m.id { return; }
      }
      messages := messages + [m];
    }

    method Reset()
      requires Valid()
      modifies this
      ensures Valid() && View() == INITIAL && messages == [] && fresh(participants)
      ensures cachedResult == old(cachedResult) && cachedMap == old(cachedMap) && cachedSelfId == old(cachedSelfId)
    {
      participants := new EntryMap();
      self, isMuted, isVideoOn, messages := None, false, true, [];
    }

    /**
     * Always what a fresh computation would give, and the very same array for as long as the map and
     * the own id stay the same.
     */
    method SelectOrdered() returns (shown: array<RosterEntry>)
      requires Valid()
      modifies this`cachedMap, this`cachedSelfId, this`cachedResult
      ensures Valid() && Cached() && shown == cachedResult
      ensures shown[..] == Ordered(participants.entries, SelfId())
      ensures old(Cached()) ==> shown == old(cachedResult)
      ensures !old(Cached()) ==> fresh(shown)
    {
      if cachedMap == participants && cachedSelfId == SelfId() {
        return cachedResult;
      }
      var all := Ordered(participants.entries, SelfId());
      cachedMap := participants;
      cachedSelfId := SelfId();
      cachedResult := new RosterEntry[|all|](i requires 0 <= i < |all| => all[i]);
      shown := cachedResult;
    }
  }

  lemma {:induction false} BoundEntryKeepsId(es: Entries, id: RowId)
    requires id in Contents(es)
    ensures Contents(es)[id].id == id
  {
    var n := |es| - 1;
    if es[n].id != id {
      BoundEntryKeepsId(es[..n], id);
    }
  }
}
