// The room store of the client as a value: what each action makes of it. `StoreObject` holds
// the same store as an object over insertion-ordered maps, with the memoised selector.

module MeetingStore {
  import opened Model
  import opened Protocol

  type Roster = map<RowId, RosterEntry>

  datatype Store = Store(participants: Roster, self: Option<RosterEntry>, isMuted: bool, isVideoOn: bool)

  const INITIAL: Store := Store(map[], None, false, true)

  function FromSnapshot(entries: seq<RosterEntry>): Roster {
    if entries == [] then map[]
    else FromSnapshot(entries[..|entries| - 1])[entries[|entries| - 1].id := entries[|entries| - 1]]
  }

  function Amended(p: RosterEntry, c: Changes): RosterEntry {
    p.(flags := Patched(p.flags, c))
  }

  function PatchedIn(r: Roster, id: RowId, c: Changes): Roster {
    if id in r then r[id := Amended(r[id], c)] else r
  }

  function SetRoomState(s: Store, self: RosterEntry, entries: seq<RosterEntry>): Store {
    Store(FromSnapshot(entries), Some(self), self.flags.muted, self.flags.videoOn)
  }

  function UpsertParticipant(s: Store, p: RosterEntry): Store {
    s.(participants := s.participants[p.id := p])
  }

  function RemoveParticipant(s: Store, id: RowId): Store {
    s.(participants := s.participants - {id})
  }

  function PatchParticipant(s: Store, id: RowId, c: Changes): Store {
    if id !in s.participants then s
    else s.(participants := PatchedIn(s.participants, id, c),
            self := if s.self.Some? && s.self.value.id == id then Some(Amended(s.self.value, c)) else s.self)
  }

  function SetMuted(s: Store, muted: bool): Store {
    s.(isMuted := muted)
  }

  function SetVideoOn(s: Store, on: bool): Store {
    s.(isVideoOn := on)
  }

  /** A snapshot with one entry per id is read back entry by entry. */
  lemma {:induction false} SnapshotReadsBack(entries: seq<RosterEntry>)
    requires forall i, j :: 0 <= i < j < |entries| ==> entries[i].id != entries[j].id
    ensures forall i :: 0 <= i < |entries| ==>
                          entries[i].id in FromSnapshot(entries) && FromSnapshot(entries)[entries[i].id] == entries[i]
    ensures forall r :: r in FromSnapshot(entries) ==> exists i :: 0 <= i < |entries| && entries[i].id == r
  {
    if entries != [] {
      var n := |entries| - 1;
      SnapshotReadsBack(entries[..n]);
      forall r | r in FromSnapshot(entries) ensures exists i :: 0 <= i < |entries| && entries[i].id == r {
        if r != entries[n].id {
          var i :| 0 <= i < n && entries[..n][i].id == r;
          assert entries[i].id == r;
        }
      }
    }
  }

  /** A snapshot of a roster that lists this client leaves buttons, own entry and roster saying the same. */
  lemma SnapshotSetsTheButtons(s: Store, self: RosterEntry, entries: seq<RosterEntry>)
    requires self in entries && forall i, j :: 0 <= i < j < |entries| ==> entries[i].id != entries[j].id
    ensures var d := SetRoomState(s, self, entries);
            && self.id in d.participants && d.participants[self.id] == self && d.self == Some(self)
            && d.isMuted == self.flags.muted && d.isVideoOn == self.flags.videoOn
  {
    SnapshotReadsBack(entries);
  }

  predicate Listed(entries: seq<RosterEntry>, r: RowId) {
    exists i :: 0 <= i < |entries| && entries[i].id == r
  }

  /** A snapshot binds the ids it lists. */
  lemma {:induction false} SnapshotBinds(entries: seq<RosterEntry>)
    ensures forall r :: r in FromSnapshot(entries) <==> Listed(entries, r)
  {
    if entries != [] {
      var n := |entries| - 1;
      SnapshotBinds(entries[..n]);
      forall r ensures Listed(entries, r) <==> r == entries[n].id || Listed(entries[..n], r) {
        if i :| 0 <= i < n && entries[..n][i].id == r { assert entries[i].id == r; }
      }
    }
  }
}
