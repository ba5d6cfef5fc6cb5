// The client's frame dispatch: how each frame becomes store actions, peer-manager calls and
// frames of its own. The mesh is what the peer manager knows of roles: who is known, and
// for whom this side created the offer.

module MeetingRoom {
  import opened Model
  import opened Protocol
  import opened MeetingStore

  datatype Media = Media(isMuted: bool, isVideoOn: bool)

  function Reported(m: Media): Changes {
    Changes(Some(m.isMuted), Some(m.isVideoOn), None)
  }

  /** `roles[id]` is the initiator flag of the peer; `offered` lists every offer created, in order. */
  datatype Mesh = Mesh(roles: map<RowId, bool>, offered: seq<RowId>)

  /** A known peer is left alone; an unknown one created as initiator is sent an offer. */
  function AddPeer(m: Mesh, id: RowId, initiator: bool): Mesh {
    if id in m.roles then m
    else Mesh(m.roles[id := initiator], if initiator then m.offered + [id] else m.offered)
  }

  function AddPeers(m: Mesh, entries: seq<RosterEntry>, you: RowId): Mesh {
    if entries == [] then m
    else
      var rest := AddPeers(m, entries[..|entries| - 1], you);
      var last := entries[|entries| - 1];
      if last.id == you then rest else AddPeer(rest, last.id, false)
  }

  function RemovePeer(m: Mesh, id: RowId): Mesh {
    m.(roles := m.roles - {id})
  }

  /** A signal may outrun the news of its sender, who is then driving. */
  function SignalFrom(m: Mesh, from: RowId): Mesh {
    AddPeer(m, from, false)
  }

  datatype Client = Client(
    store: Store,
    selfId: Option<RowId>,
    media: Media,
    mesh: Mesh,
    left: bool,
    outbox: seq<ClientFrame>)

  /** Leaving closes the socket, destroys the mesh and resets the store; frames already sent stay sent. */
  function Leave(c: Client): Client {
    c.(store := INITIAL, mesh := c.mesh.(roles := map[]), left := true)
  }

  function OnRoomState(c: Client, entries: seq<RosterEntry>, you: RosterEntry): Client {
    var applied := SetRoomState(c.store, you, entries);
    var toggled := SetVideoOn(SetMuted(applied, c.media.isMuted), c.media.isVideoOn);
    c.(store := PatchParticipant(toggled, you.id, Reported(c.media)),
       outbox := c.outbox + [StateUpdate(Reported(c.media))],
       selfId := Some(you.id),
       mesh := AddPeers(c.mesh, entries, you.id))
  }

  function OnPeerJoined(c: Client, p: RosterEntry): Client {
    c.(store := UpsertParticipant(c.store, p),
       mesh := AddPeer(c.mesh, p.id, true),
       outbox := if p.id in c.mesh.roles then c.outbox else c.outbox + [Signal(Offer, Some(p.id), 0)])
  }

  function Dispatch(c: Client, f: ServerFrame): Client {
    if c.left then c
    else
      match f
      case RoomState(entries, you) => OnRoomState(c, entries, you)
      case PeerJoined(p) => OnPeerJoined(c, p)
      case PeerLeft(r) => c.(mesh := RemovePeer(c.mesh, r), store := RemoveParticipant(c.store, r))
      case PeerUpdated(r, flags) =>
        c.(store :=
            PatchParticipant(c.store, r, Changes(Some(flags.muted), Some(flags.videoOn), Some(flags.handRaised))))
      case Relayed(_, from, _) => c.(mesh := SignalFrom(c.mesh, from))
      case HostMutedYou(_) => c.(store := SetMuted(c.store, true))
      case HostRemovedYou(_) => Leave(c)
      case MeetingEnded(_) => Leave(c)
      case ChatMessage(_, _) => c
      case Error(_) => c
      case Pong => c
  }

  /** After a snapshot the client's own buttons show what it started with: the server's flags only if those agree. */
  lemma SnapshotShowsServerMediaIff(c: Client, entries: seq<RosterEntry>, you: RosterEntry)
    requires !c.left
    ensures var d := Dispatch(c, RoomState(entries, you));
            && (d.store.isMuted == you.flags.muted && d.store.isVideoOn == you.flags.videoOn
                <==> c.media == Media(you.flags.muted, you.flags.videoOn))
            && d.outbox == c.outbox + [StateUpdate(Reported(c.media))]
  {
  }

  // --- What the user does -----------------------------------------------------------------

  datatype Action = ToggleMute | ToggleVideo | Send(frame: ClientFrame) | LeaveRoom

  /** Muting reports without touching the roster; the camera toggle also patches this client's own entry. */
  function Act(c: Client, a: Action): Client {
    if c.left then c
    else
      match a
      case ToggleMute =>
        var next := !c.store.isMuted;
        c.(store := SetMuted(c.store, next),
           outbox := c.outbox + [StateUpdate(Changes(Some(next), None, None))])
      case ToggleVideo =>
        var next := !c.store.isVideoOn;
        var toggled := SetVideoOn(c.store, next);
        var change := Changes(None, Some(next), None);
        c.(store := if c.selfId.Some? then PatchParticipant(toggled, c.selfId.value, change) else toggled,
           outbox := c.outbox + [StateUpdate(change)])
      case Send(frame) => c.(outbox := c.outbox + [frame])
      case LeaveRoom => Leave(c)
  }

  // --- The component --------------------------------------------------------------------------

  class Room {
    var store: Store
    var selfId: Option<RowId>
    const media: Media
    var mesh: Mesh
    var left: bool
    var outbox: seq<ClientFrame>

    constructor (media: Media)
      ensures View() == Client(INITIAL, None, media, Mesh(map[], []), false, [])
    {
      store, selfId, this.media := INITIAL, None, media;
      mesh, left, outbox := Mesh(map[], []), false, [];
    }

    function View(): Client
      reads this
    {
      Client(store, selfId, media, mesh, left, outbox)
    }

    method AddKnownPeers(entries: seq<RosterEntry>, you: RowId)
      modifies this`mesh
      ensures mesh == AddPeers(old(mesh), entries, you)
    {
      for i := 0 to |entries|
        invariant mesh == AddPeers(old(mesh), entries[..i], you)
      {
        assert entries[..i + 1][..i] == entries[..i];
        if entries[i].id != you {
          mesh := AddPeer(mesh, entries[i].id, false);
        }
      }
      assert entries[..|entries|] == entries;
    }

    method Teardown()
      modifies this
      ensures View() == Leave(old(View()))
    {
      mesh := mesh.(roles := map[]);
      store := INITIAL;
      left := true;
    }

    method HandleFrame(f: ServerFrame)
      modifies this
      ensures View() == Dispatch(old(View()), f)
    {
      if left { return; }
      match f {
        case RoomState(entries, you) =>
          store := SetRoomState(store, you, entries);
          store := SetMuted(store, media.isMuted);
          store := SetVideoOn(store, media.isVideoOn);
          store := PatchParticipant(store, you.id, Reported(media));
          outbox := outbox + [StateUpdate(Reported(media))];
          selfId := Some(you.id);
          AddKnownPeers(entries, you.id);
        case PeerJoined(p) =>
          store := UpsertParticipant(store, p);
          var known := p.id in mesh.roles;
          mesh := AddPeer(mesh, p.id, true);
          if !known {
            outbox := outbox + [Signal(Offer, Some(p.id), 0)];
          }
        case PeerLeft(r) =>
          mesh := RemovePeer(mesh, r);
          store := RemoveParticipant(store, r);
        case PeerUpdated(r, flags) =>
          store := PatchParticipant(store, r, Changes(Some(flags.muted), Some(flags.videoOn), Some(flags.handRaised)));
        case Relayed(_, from, _) => mesh := SignalFrom(mesh, from);
        case HostMutedYou(_) => store := SetMuted(store, true);
        case HostRemovedYou(_) => Teardown();
        case MeetingEnded(_) => Teardown();
        case ChatMessage(_, _) =>
        case Error(_) =>
        case Pong =>
      }
    }
  }
}
