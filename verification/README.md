# Video meetings, as a verified model

The repository is a video-meeting application: a REST service and a signaling socket on the server, a
peer-to-peer mesh with a replicated roster on the clients. This project models the protocol between them
and proves what it keeps over whole runs. `dafny verify dfyconfig.toml` checks everything.

## Layout

- `Model`, `Protocol`: entities, database session, frames.
- `Lifecycle` says what each service call does to the tables; `Services` holds the calls as imperative
  methods that refine it; `LifecycleProofs` what every call keeps.
- `Columns` and `Logs` read every step field by field: which steps write a field, and with what. On them rest
  `Answers` (what is refused and why), `Authority` (what guests and owners can do), `Buttons` (how a host's mute
  reaches the microphone) and `Listings` (what comes onto a listing and leaves it).
- `Registry`: the in-process socket registry. `Server`: the room protocol as a state machine over steps.
  `Router`: the same steps as methods over the session and the registry.
- `ServerProofs` (the inductive invariant), `Guarantees`, `Isolation`, `Roster`, `Introductions`: results
  over every run of the server. `Handshake`: a finer machine, with a connect cut at the acceptance of its
  socket.
- `MeetingStore` and `StoreObject` (the store as value and as object), `MeetingRoom` (the frame dispatch),
  `Initiator` and `Replica`: clients and server composed.
- `Jsep`, `PeerManager`, `PeerProofs`, `Trickle`, `PeerObject`: the mesh cut at every `await`. `Glare`: two sides over
  channels, each method one step. `Uninterrupted`: the first model run without interruption is the second.
- `Relay`: the server as a channel. `EndToEnd`: two clients, the server between them and their peers in one
  machine; its runs are glare plays.
- `SignalingClient`, `SignalingObject`: the reconnecting socket. `Pagination`: page walks; `MeetingPages` and
  `ScheduledPages`: page walks along server runs. `MemoryCache`, `RecentIds`: two refinements.
- `Witnesses`: concrete runs at which a property one might expect fails.

Steps carry every outside choice (clock readings, ids, failures), so a run is a sequence and its outcome
a function. Where the source is an object with fields, a class with those fields has methods proved equal
to the functions the theorems are about.

## Assumptions

Each service call is one transaction; a connect (up to the arrival broadcast), a frame handler and a
teardown are one step each. Ids are fresh and come from one counter, and the server clock does not go back. A
session id identifies its row. A user behind a new socket may start with any store, queue and mesh. What a client
sends reaches the server in order; by `SignalingClient.FramesStayInOrderIff` that is so while no write throws.

## Where code and comments part

- `web/src/lib/webrtc/PeerManager.ts:129-133` says one side always yields. That needs the two initiator flags
  to differ (`Glare.ConvergesIff`). The roles come from the order of frames: when both rows exist before either
  socket, each client finds the other in its snapshot, both sides are passive and nobody ever offers
  (`Witnesses.NobodyEverOffers`).
- `web/src/lib/webrtc/SignalingClient.ts:186-187` requeues a frame whose write throws. It is not lost, but it is
  overtaken (`SignalingClient.ThrowingWriteIsOvertaken`); order holds exactly when no write throws
  (`SignalingClient.FramesStayInOrderIff`).
- `web/src/store/meetingStore.ts:102-105` calls the server row authoritative on reconnect; the room component
  then overrides it with the media it started with and reports that
  (`web/src/components/meeting/MeetingRoom.tsx:152-165`). The client shows the server's flags exactly when they
  were its own already (`MeetingRoom.SnapshotShowsServerMediaIff`), the report overrides the row
  (`Replica.ReportOverridesTheRow`), and a reconnect undoes a host's mute (`Witnesses.ReconnectUndoesTheMute`).
- `api/app/services/meeting_service.py:238-241` promises stable pages. What breaks them is a change to the sort
  key of the row a page ends with, before the next request; how often any other row is then listed is counted by
  `Pagination.StableRowIsVisitedOnceIff`. In the listing of all meetings that cannot happen
  (`MeetingPages.WalkOverAllMeetings`). In the recent listing, ending such a meeting a second time by the host
  frame lists rows twice (`Witnesses.SecondEndRepeatsARow`; exactly when: `MeetingPages.WalkOverRecentMeetings`);
  restarting it makes the next request compare a column with `None`, which the query builder refuses, and the
  request fails with an unhandled error (`MeetingPages.RestartFailsTheNextRequest`; exactly when:
  `MeetingPages.NextRequestFailsIff`). In the upcoming and day listings, rescheduling it skips rows, or lists
  them twice (`Witnesses.PostponingSkipsARow`; exactly when: `ScheduledPages.WalkOverScheduledMeetings`).
- `web/src/components/join/recentMeetingIds.ts:90` ignores the event of a cleared storage, which carries no key:
  a snapshot with something in it goes stale (`RecentIds.HappenIsFreshIff`).

## Model

| member | source | states |
|---|---|---|
| Replica.AtRestTheReplicaIsTheTable | web/src/components/meeting/MeetingRoom.tsx:141-201 | replica agreement, server and clients together: in any run whose closures and flag changes go through the socket, a registered client still in the room that has read its whole inbox and has no report of its own pending holds every present row of its meeting that connected, only such rows, and each word for word (flags, role, stamps) as the tables; other clients may lag |
| Replica.AtRestEveryFieldIsTheRows | web/src/store/meetingStore.ts:85-146 | that agreement field by field: user, role, meeting, stamps and each flag of every entry shown are those of its row |
| Replica.EveryPlayIsOk | web/src/components/meeting/MeetingRoom.tsx:133-240 | the invariant behind it, over every interleaving of server steps, reads, forwards and user actions: handling the rest of its log would bring each client to what the log says, up to its own flags while a report of them is on its way |
| Replica.SnapshotResets | web/src/store/meetingStore.ts:85-107 | a snapshot wipes out whatever roster an earlier socket left behind: reconnecting is a resync |
| Replica.DispatchHears | web/src/components/meeting/MeetingRoom.tsx:141-201 | the client handles a frame exactly as the log is read, except that a snapshot is followed by its own report of itself |
| Replica.ReportComesBack | api/app/realtime/router.py:218-238 | a report of its own flags from a registered socket comes back to it as news carrying the flags the table now has |
| Replica.ReportOverridesTheRow | api/app/services/signaling_service.py:157-177 | a report from a running socket changes the row of that socket alone, which takes the media of the client over whatever the host or the server had set |
| MeetingRoom.SnapshotShowsServerMediaIff | web/src/components/meeting/MeetingRoom.tsx:141-165 | after a snapshot a client shows the media flags of its server row exactly when they already were its own, and it reports its own in every case |
| Witnesses.ReconnectUndoesTheMute | web/src/components/meeting/MeetingRoom.tsx:141-165 | a run in which a host mutes a guest, the guest reconnects before its stale socket is torn down, and its report after the snapshot unmutes it in the table |
| Roster.EveryLogAgreesWithTheTables | api/app/realtime/router.py:78-102 | the server half: after every atomic step the log of each registered socket not told to leave spells out the present rows of its meeting, no more, and none that ever connected missing |
| Roster.RestCallAgreesIff | api/app/services/participant_service.py:210-272 | REST calls send nothing: with every log agreeing before it, a call leaves them agreeing unless it is a leave of a row somebody was told of, an allowed removal of one, an allowed patch that changes the flags of one, or the allowed end of a meeting with an open one; the condition is read off the state before the call, and is exact |
| Witnesses.LeavingByRestGoesUnheard | api/app/services/participant_service.py:264-271 | a run at which it fails: a guest leaves by REST and stays in the logs |
| Roster.ActiveRosterLists | api/app/services/signaling_service.py:114-136 | the snapshot lists exactly the present rows of the meeting, each once, oldest first |
| Initiator.LaterNeverOffers | web/src/components/meeting/MeetingRoom.tsx:171-173 | of two participants with one socket each and rows open, the later-registered never creates the offer, whatever else happens in the run |
| Initiator.EarlierOffersExactlyWhenTheRowIsNewer | web/src/components/meeting/MeetingRoom.tsx:178-184 | the earlier creates exactly one offer if its socket registered before the later row was created, and none if the row was already there: then nobody ever offers |
| Witnesses.NobodyEverOffers | web/src/components/meeting/MeetingRoom.tsx:171-184 | after create, two joins and two connects, however the run goes on while both rows stay open with one socket each, neither client ever creates an offer |
| Witnesses.BothInIsAPair | api/app/realtime/router.py:72-102 | that run meets the conditions of the two results before |
| Introductions.EveryRunIsMannered | api/app/realtime/router.py:76-102 | in every run each log starts with the one snapshot, a snapshot lists every older open row of the meeting and no newer row, and departures name closed rows only; of rows with one socket each, the later is introduced to the earlier before it signals |
| Introductions.ConnectAdmits | api/app/realtime/router.py:72-102 | what a connect changes when it succeeds: sockets, rooms, running set, rows, logs and the id counter, not the meetings nor the clock; and that it changes nothing but the id counter when it does not |
| Guarantees.StatusFollowsTransitions | api/app/services/meeting_service.py:52-94 | over every run each write to a status leaves it or follows an edge of the transition table, although joining and ending by the host never consult it; owners, creation stamps and closing stamps never change |
| Guarantees.StampsAlwaysAgree | api/app/services/meeting_service.py:522-566 | ended exactly when the end stamp is set, live implies a start stamp, start no later than end, and an ended meeting has nobody in it |
| Guarantees.MeshCapAlwaysHolds | api/app/services/signaling_service.py:139-154 | no meeting ever has more than six open rows, across end and restart, so the connect-time check never refuses an authenticated socket |
| Guarantees.ClosingStampIsWrittenOnce | api/app/services/participant_service.py:274-284 | a closed row keeps its first closing stamp however the run goes on |
| Guarantees.BindingIsLastSocket | api/app/services/signaling_service.py:87-111 | an open row names exactly the socket last admitted for it, read off the history; a closed row names none |
| Guarantees.TeardownEvictsOnlyTheLastSocket | api/app/realtime/router.py:157-176 | a teardown closes the row and tells the room exactly when its socket is the last one the open row was given; otherwise it touches neither tables nor logs |
| Guarantees.EachRowDepartsAtMostOnce | api/app/realtime/router.py:157-176 | each row is announced as gone by a teardown at most once, and is then closed |
| Guarantees.ClosedRowNeverDeparts | api/app/services/signaling_service.py:234-274 | once a row was closed by removal, meeting end or a REST call, no teardown announces it |
| Isolation.EveryStepStaysInItsRoom | api/app/realtime/registry.py:134-160 | a step writes only to sockets of the meeting it acts in, only by appending, and REST calls write to none |
| Isolation.RegistryMatchesTheTables | api/app/realtime/registry.py:82-102 | every registered socket sits in its own room, belongs to a row of that meeting, and no empty room is stored |
| Isolation.RelayReachesTheBoundSocket | api/app/realtime/registry.py:110-121 | a relay for a participant goes to the socket its row names, stale ones notwithstanding |
| ServerProofs.ApplyKeeps | api/app/realtime/router.py:46-118 | every step keeps the invariant tying meetings, rows, rooms and sockets together, and its table writes keep the discipline |
| ServerProofs.Reachable | api/app/realtime/router.py:46-118 | so the invariant holds in every reachable state |
| Handshake.FineReachable | api/app/realtime/router.py:71-102 | with a connect cut in two at the acceptance of the socket, anything coming between the halves: the tables, sockets and rooms stay tied together in every reachable state |
| Handshake.BothHalvesAreAConnect | api/app/realtime/router.py:46-102 | with nothing between them the halves are one connect |
| Handshake.FineStatusFollowsTransitions | api/app/services/meeting_service.py:52-94 | cut so, status writes still follow the transition table and history is kept |
| Handshake.FineStampsAgree | api/app/services/meeting_service.py:522-566 | stamps and status still agree, and an ended meeting has nobody in it |
| Handshake.FineMeshCap | api/app/services/signaling_service.py:139-154 | the cap still holds, and nobody is refused for lack of room however long the acceptance took |
| Handshake.FineClosingStampIsWrittenOnce | api/app/services/participant_service.py:274-284 | a closed row still keeps its first closing stamp |
| Handshake.FineStepStaysInItsRoom | api/app/realtime/registry.py:134-160 | frames still stay in the meeting of the step |
| Handshake.BoundStaysOpenIff | api/app/services/signaling_service.py:87-94 | that a row naming a socket is open survives a step exactly unless it is the second half of a connect whose row was closed meanwhile |
| Witnesses.LeavingDuringTheHandshake | api/app/realtime/router.py:71-84 | a run at which it fails: a leave between the halves |
| Columns.MeetingsOfEveryRun | api/app/services/meeting_service.py:355-566 | which steps write which field of which meeting, and what, over every run and read off the fields before the step: a meeting starts by its owner's call or the owner's early arrival, ends by the owner's call on a live one or a frame of the owner's socket, is cancelled and edited by its owner while scheduled; nothing else touches it |
| Columns.RowsOfEveryRun | api/app/services/participant_service.py:95-284 | the same for rows: a join that is let in creates one row with its role, flags and stamp; exactly a leave, an allowed removal, the end of the meeting, the teardown of the bound socket and the two host frames of the owner close one; exactly the own report, the own or the owner's patch and the owner's mutes change flags, each flag by itself |
| Columns.RequireHostIff | api/app/services/signaling_service.py:183-194 | a host frame is let through exactly when the socket's row belongs to the owner of its meeting, else it is refused as not from the host |
| Columns.EndsWhatHasStarted | api/app/services/signaling_service.py:250-274 | a meeting that is ended, by frame too, was live or had ended already |
| Logs.RegistryOfEveryRun | api/app/realtime/registry.py:82-102 | which sockets each step of a run registers, runs, unregisters and stops: a connect that binds adds its own, a teardown takes its own, a removal the one found for the row it closes, the end by frame all but the sender's |
| Logs.LogsOfEveryRun | api/app/realtime/router.py:72-376 | what each step of a run appends to the log of each socket, frame by frame and in order: snapshot, arrival, relay, chat, pong, update, notices, departures and refusals |
| Logs.RefusedFrameDoesNothing | api/app/realtime/router.py:121-154 | a frame that is refused writes nothing but the error its sender is told |
| Authority.GuestsChangeNothing | api/app/services/signaling_service.py:183-247 | over every run: whatever a socket sends whose user does not own the meeting, meetings, rooms, sockets and all rows but its own stay, its own changes in flags alone and by a state update alone; a host frame does nothing but have the sender told that it is not the host, or that the frame names nobody |
| Authority.OwnersChangeOneRow | api/app/services/signaling_service.py:197-247 | the owner's mute mutes exactly the row it names in that meeting, and the owner's removal closes exactly the other row it names there, keeping a first stamp; nothing else in the tables changes, and nothing at all when it names a row elsewhere |
| Answers.CallsAreRefusedIff | api/app/services/participant_service.py:95-261 | every REST call of every run is refused exactly for the reason that counts first among those found in the fields (unknown, not the owner, wrong status, start in the past, passcode, cap, oneself), and a refused call writes nothing |
| Answers.HandshakesAreRefusedIff | api/app/services/signaling_service.py:51-84 | a handshake is let in exactly for the open row of a session under its own meeting's number while that is neither over nor cancelled; that a meeting is over is told only to who holds a session of it |
| Buttons.FrameWrites | web/src/components/meeting/MeetingRoom.tsx:141-240 | what each frame makes of each field of the client besides roster and mesh, own entry, buttons and reports included |
| Buttons.MeshWrites | web/src/components/meeting/MeetingRoom.tsx:141-206 | which peers each frame has the client know and drop; only an arrival makes it the initiator, and then it offers, once |
| Buttons.HostMuteMutesOnly | web/src/components/meeting/MeetingRoom.tsx:215-219 | a host's mute leaves the client muted, with roster, camera, mesh and outbox as they were |
| Buttons.ToggleWrites | web/src/components/meeting/MeetingRoom.tsx:307-335 | a toggle flips one button and reports what is shown now, of that button alone |
| Buttons.MuteIsServed | api/app/realtime/router.py:265-289 | an obeyed mute frame puts the notice next in the log of the socket found for the row, and mutes the row |
| Buttons.HostMuteReachesTheMicrophone | web/src/components/meeting/MeetingRoom.tsx:215-219 | across server and client, over all runs: once the client behind the socket found for the row has read past the obeyed mute, it has read the notice and shows itself muted until its user toggles or leaves |
| Buttons.ToggleReachesTheRow | api/app/services/signaling_service.py:157-177 | what a toggle reports makes the row show what the client shows, in that button and no other |
| LifecycleProofs.JoinSteps | api/app/services/participant_service.py:95-168 | a join keeps the invariant and the discipline and opens exactly one fresh row, not yet bound, of that user and meeting; only a host row starts a meeting, and no other meeting is touched |
| LifecycleProofs.HostEndSteps | api/app/services/signaling_service.py:250-274 | ending by the host is a legal edge even though no transition check is made, because a host row implies live or ended |
| LifecycleProofs.EndSteps | api/app/services/meeting_service.py:538-566 | ending stamps the meeting and closes each of its open rows at that same stamp, dropping its socket; other rows and meetings stay as they were |
| LifecycleProofs.StartSteps | api/app/services/meeting_service.py:522-535 | starting clears the end stamp and opens no row |
| LifecycleProofs.CreateSteps | api/app/services/meeting_service.py:355-442 | creating adds one meeting with consistent stamps and touches no other |
| LifecycleProofs.CancelSteps | api/app/services/meeting_service.py:510-519 | cancelling is legal from scheduled only and evicts nobody |
| LifecycleProofs.UpdateSteps | api/app/services/meeting_service.py:452-507 | editing is legal while scheduled and changes no status |
| LifecycleProofs.CloseSteps | api/app/services/participant_service.py:274-284 | closing a row drops its socket and writes the stamp once |
| LifecycleProofs.BindSteps | api/app/services/signaling_service.py:87-94 | binding a socket keeps everything else about the row |
| LifecycleProofs.HostMuteAllSteps | api/app/services/signaling_service.py:217-231 | muting all changes the muted flag of the other open rows and nothing else |
| LifecycleProofs.ConnectNeverFindsRoomFull | api/app/services/signaling_service.py:139-154 | in a state that keeps the invariant the connect-time cap check passes |
| MeetingService.CreateMeeting | api/app/services/meeting_service.py:355-442 | runs the create transaction; an instant meeting is born live, a past start refused |
| MeetingService.UpdateMeeting | api/app/services/meeting_service.py:452-507 | runs the edit transaction for the owner of a scheduled meeting |
| MeetingService.CancelMeeting | api/app/services/meeting_service.py:510-519 | runs the cancel transaction |
| MeetingService.StartMeeting | api/app/services/meeting_service.py:522-535 | runs the start transaction |
| MeetingService.EndAndEvict | api/app/services/meeting_service.py:549-566 | the eviction loop closes exactly the open rows of the meeting at one stamp |
| MeetingService.EndMeeting | api/app/services/meeting_service.py:538-566 | runs the end transaction |
| ParticipantService.JoinMeeting | api/app/services/participant_service.py:95-168 | runs the join transaction with its refusals in order |
| ParticipantService.MarkLeft | api/app/services/participant_service.py:274-284 | closes the row, keeping a first stamp, and drops its socket |
| ParticipantService.LeaveMeeting | api/app/services/participant_service.py:264-271 | closes the row of a session, or refuses an unknown one |
| ParticipantService.RemoveParticipant | api/app/services/participant_service.py:240-261 | the host closes another row |
| ParticipantService.UpdateParticipant | api/app/services/participant_service.py:210-237 | self or host changes flags |
| SignalingService.BindConnection | api/app/services/signaling_service.py:87-94 | the row now names the socket |
| SignalingService.ReleaseConnection | api/app/services/signaling_service.py:97-111 | closes the row only if it still names this socket |
| SignalingService.ApplyStateUpdate | api/app/services/signaling_service.py:157-177 | patches the given flags of the row |
| SignalingService.HostMute | api/app/services/signaling_service.py:197-214 | mutes one row of the host's meeting |
| SignalingService.HostMuteAll | api/app/services/signaling_service.py:217-231 | the loop mutes every other open row of the meeting, and no other |
| SignalingService.HostRemove | api/app/services/signaling_service.py:234-247 | closes another row of the host's meeting |
| SignalingService.HostEndMeeting | api/app/services/signaling_service.py:250-274 | the loop closes every open row and stamps the meeting ended |
| Registry.FindIsLast | api/app/realtime/registry.py:110-121 | a search returns the last added surviving socket of the participant |
| Registry.AddThenRemove | api/app/realtime/registry.py:82-102 | removing what was just added restores the registry, room and all |
| Registry.RoomRegistry.Add | api/app/realtime/registry.py:82-92 | the socket goes last in its room |
| Registry.RoomRegistry.Remove | api/app/realtime/registry.py:94-102 | the socket leaves its room, and an emptied room leaves the registry |
| Registry.RoomRegistry.FindSocket | api/app/realtime/registry.py:110-121 | the scan computes the search the lemmas are about |
| Registry.RoomRegistry.IsInRoom | api/app/realtime/registry.py:123-125 | true exactly when some socket of the room belongs to the participant |
| Registry.RoomRegistry.Size | api/app/realtime/registry.py:127-132 | counts distinct participants, not sockets |
| Registry.RoomRegistry.Broadcast | api/app/realtime/registry.py:134-152 | each socket of the room but the excluded one gets the frame once, and nobody else |
| Registry.RoomRegistry.SendToParticipant | api/app/realtime/registry.py:154-166 | only the found socket gets the frame |
| Router.SignalingRouter.Connect | api/app/realtime/router.py:46-102 | one connect, from authentication to the arrival broadcast, does what the server step does, or refuses and leaves tables and logs alone |
| Router.SignalingRouter.Admit | api/app/realtime/router.py:72-102 | registers, binds, snapshots, then announces, in that order |
| Router.SignalingRouter.HandleSignal | api/app/realtime/router.py:191-215 | relays to the found socket of the target, or reports why not |
| Router.SignalingRouter.HandleStateUpdate | api/app/realtime/router.py:218-238 | patches the sender's row and tells the room its new flags |
| Router.SignalingRouter.HandleHostMute | api/app/realtime/router.py:265-289 | mutes, tells the target, then the room |
| Router.SignalingRouter.HandleHostMuteAll | api/app/realtime/router.py:292-311 | one notice and one update per muted row, in row order |
| Router.SignalingRouter.HandleHostRemove | api/app/realtime/router.py:314-345 | closes the row, tells it, tells the room, closes its found socket |
| Router.SignalingRouter.HandleHostEnd | api/app/realtime/router.py:348-376 | ends, tells everyone, and unregisters every socket but the host's |
| Router.SignalingRouter.Receive | api/app/realtime/router.py:121-154 | a frame of a running socket does what the server step does; an unknown one is answered, not fatal |
| Router.SignalingRouter.Teardown | api/app/realtime/router.py:157-176 | unregisters, then releases, then tells the room if the row closed |
| MeetingRoom.Room.HandleFrame | web/src/components/meeting/MeetingRoom.tsx:133-240 | the frame switch does to store, mesh and outbox what the dispatch function of the replica and initiator results says |
| MeetingRoom.Room.AddKnownPeers | web/src/components/meeting/MeetingRoom.tsx:171-173 | the snapshot loop adds everyone but this client as a passive peer |
| StoreObject.RoomStore.SelectOrdered | web/src/store/meetingStore.ts:194-228 | always equals a fresh computation, and returns the very same array for as long as neither the map nor the own id has changed |
| StoreObject.OrderedIsPermutation | web/src/store/meetingStore.ts:218-227 | the order shown is a permutation of the roster |
| StoreObject.SelfMovesToTheFront | web/src/store/meetingStore.ts:218-227 | this client's entry comes first and the others keep the map's order |
| StoreObject.AbsentSelfIsNotMoved | web/src/store/meetingStore.ts:218-227 | an own id that is not in the roster moves nothing |
| StoreObject.PutBinds | web/src/store/meetingStore.ts:109-114 | setting a key of an insertion-ordered map binds that key and no other |
| StoreObject.PutKeepsPlaces | web/src/store/meetingStore.ts:109-114 | in the order of the map a key set again keeps its place and a new one goes last |
| StoreObject.OthersUnbinds | web/src/store/meetingStore.ts:116-119 | deleting a key unbinds that key and no other |
| StoreObject.EachMessageIsShownOnce | web/src/store/meetingStore.ts:164-170 | any stream of messages, repeats included, is shown with each id once and none lost |
| StoreObject.RoomStore.SetRoomState | web/src/store/meetingStore.ts:85-107 | publishes a fresh map holding the snapshot, and takes the flags of the server row |
| StoreObject.RoomStore.UpsertParticipant | web/src/store/meetingStore.ts:109-114 | publishes a fresh map with the entry set |
| StoreObject.RoomStore.RemoveParticipant | web/src/store/meetingStore.ts:116-131 | publishes a fresh map without the entry |
| StoreObject.RoomStore.PatchParticipant | web/src/store/meetingStore.ts:133-146 | publishes a fresh map and keeps the own entry in step; an unknown id publishes nothing, the map keeps its identity |
| StoreObject.RoomStore.AddMessage | web/src/store/meetingStore.ts:164-170 | the scan appends a message exactly when its id is not shown yet |
| StoreObject.RoomStore.Reset | web/src/store/meetingStore.ts:184-191 | back to the initial store, with a fresh map |
| MeetingStore.SnapshotSetsTheButtons | web/src/store/meetingStore.ts:85-107 | a snapshot that lists this client leaves its buttons, own entry and roster entry saying the same |
| MeetingStore.SnapshotReadsBack | web/src/store/meetingStore.ts:85-107 | a snapshot with one entry per id is read back entry by entry |
| PeerProofs.IceExactlyOnce | web/src/lib/webrtc/PeerManager.ts:243-270 | under every interleaving of the pieces between awaits, candidates received for a connection are those submitted to it plus those pending plus those an unfinished flush holds, each once; candidates pend only while there is no remote description or a flush is still due |
| PeerProofs.ReceivedIsWhatSignalsBrought | web/src/lib/webrtc/PeerManager.ts:89-108 | the received history is what the signals of the run carried to that connection |
| Trickle.CandidatesGoOutInOrder | web/src/lib/webrtc/PeerManager.ts:230-234 | under every interleaving, the candidates sent to a peer are, in order, those the run had its open connections find |
| Trickle.OnlyMappedConnectionsSend | web/src/lib/webrtc/PeerManager.ts:230-234 | a found candidate goes out, once and to the remote side, exactly when its connection is the one the manager maps its remote id to; a torn-down one changes nothing |
| Trickle.GatheringIsAGlareMove | web/src/lib/webrtc/PeerManager.ts:230-234 | sending it is the move of the glare model: the peer stays, and the channel holds the candidate last |
| PeerObject.Mesh.CandidateFound | web/src/lib/webrtc/PeerManager.ts:230-234 | the callback sends what the model sends |
| PeerProofs.KnownIff | web/src/lib/webrtc/PeerManager.ts:54-157 | under every interleaving a peer is known, and with its initiator flag, exactly as the history says: since it was first added or heard from and neither removed nor swept away by a destroy, after which nothing is added until the next init |
| PeerProofs.OneConnectionPerPeer | web/src/lib/webrtc/PeerManager.ts:159-164 | under every interleaving there is at most one open connection per remote id, and every connection ever created is in the map or closed |
| PeerProofs.NothingOpensAfterDestroy | web/src/lib/webrtc/PeerManager.ts:189-194 | after destruction no connection is open and none is created until the next init, whatever calls were suspended |
| PeerProofs.AddPeerIsMeshAddPeer | web/src/lib/webrtc/PeerManager.ts:77-87 | adding a peer changes roles and begins offers as the room component reckons: a known id is left alone |
| PeerProofs.SignalIsMeshSignal | web/src/lib/webrtc/PeerManager.ts:100-103 | an unknown sender becomes a passive peer; no other role changes |
| PeerProofs.RemovalIsMeshRemoval | web/src/lib/webrtc/PeerManager.ts:159-164 | removal forgets one role and no other |
| PeerObject.Mesh.AddPeer | web/src/lib/webrtc/PeerManager.ts:77-87 | from the call to its first await |
| PeerObject.Mesh.HandleSignal | web/src/lib/webrtc/PeerManager.ts:89-126 | from the call to its first await, in each branch |
| PeerObject.Mesh.HandleOffer | web/src/lib/webrtc/PeerManager.ts:135-152 | glare: impolite ignores, polite rolls back, no collision accepts |
| PeerObject.Mesh.AddCandidate | web/src/lib/webrtc/PeerManager.ts:243-258 | buffered without a remote description, submitted with one |
| PeerObject.Mesh.FlushCandidates | web/src/lib/webrtc/PeerManager.ts:260-270 | takes the whole queue away before submitting its first candidate |
| PeerObject.Mesh.RemovePeer | web/src/lib/webrtc/PeerManager.ts:159-164 | forgets and closes one peer |
| PeerObject.Mesh.Destroy | web/src/lib/webrtc/PeerManager.ts:189-194 | the loop closes every known connection, then forgets them |
| PeerObject.Mesh.SettleCall | web/src/lib/webrtc/PeerManager.ts:77-157 | the browser accepts or rejects the operation a call awaits |
| PeerObject.Mesh.ResumeCall | web/src/lib/webrtc/PeerManager.ts:83-157 | a call runs on from its await to the next, in every branch |
| Jsep.RollbackUndoes | web/src/lib/webrtc/PeerManager.ts:147-150 | a rollback restores what held before the offer it undoes (section 4.1.10.2 of RFC 8829) |
| Jsep.PerformWrites | web/src/lib/webrtc/PeerManager.ts:77-157 | which operations a connection accepts in each state, and what each leaves in each of its descriptions |
| Jsep.PerformIsConsistent | web/src/lib/webrtc/PeerManager.ts:140-157 | pending descriptions and signaling state stay consistent through every operation (section 3.2 of RFC 8829) |
| Uninterrupted.SignalRunsAsOneStep | web/src/lib/webrtc/PeerManager.ts:89-157 | a signal run to its end without interruption, from a known or an unknown sender and whichever browser operations are refused, does to the peer, and sends, what one step says |
| Uninterrupted.NothingRefused | web/src/lib/webrtc/PeerManager.ts:77-157 | with nothing refused, that step is the one of the glare results |
| Uninterrupted.AddPeerRunsAsOneStep | web/src/lib/webrtc/PeerManager.ts:77-87 | so does adding a peer as initiator: one peer, and one offer unless the browser refuses to make it |
| Uninterrupted.FlushRunsThrough | web/src/lib/webrtc/PeerManager.ts:260-270 | a flush submits every queued candidate, whether or not the connection accepts it |
| Glare.GlareConverges | web/src/lib/webrtc/PeerManager.ts:128-157 | with exactly one impolite side, every run over first-in first-out channels that has gone quiet ends with both sides stable, each remote description equal to the other's local one, and every candidate sent handed to the other side, however often offers crossed |
| Glare.EveryPlayNegotiates | web/src/lib/webrtc/PeerManager.ts:135-157 | the negotiation invariant: what can be on its way in each phase, including a stale offer ahead of an answer |
| Glare.DeliveriesAreBounded | web/src/lib/webrtc/PeerManager.ts:89-157 | two deliveries per offer and one per candidate are all there can be, in any order |
| Glare.ConvergesIff | web/src/lib/webrtc/PeerManager.ts:77-157 | over the plays in which only initiators offer, no quiet one is left unconverged if and only if the two initiator flags differ |
| Glare.TwoPassiveSidesStayUndescribed | web/src/lib/webrtc/PeerManager.ts:77-87 | two passive sides exchange no description in any play, and both connections stay as created |
| Glare.TwoImpoliteSidesDeadlock | web/src/lib/webrtc/PeerManager.ts:145 | two impolite sides both wait for ever |
| EndToEnd.TwoClientsConverge | api/app/realtime/router.py:191-215 | end to end: from the connect of the second client on, while both rows stay open with one socket each and both clients stay in the room, in any run of server, relay and clients in which all frames have been read and all signals received both peers exist, are stable, described and matched, and every candidate sent was handed over |
| EndToEnd.EveryRunIsAPlay | api/app/realtime/router.py:191-215 | so far as the two peers go, every such run is a glare play with one initiator and one offer over first-in first-out channels, with a delivery for each signal handled: the channels are the server's relay and the socket logs, and the roles come from the frame dispatch |
| EndToEnd.SignalsAreBounded | api/app/realtime/router.py:191-215 | in every such run the two handle at most two signals for the one offer and one for each candidate sent, those still on their way included |
| Relay.RelayGoesThrough | api/app/realtime/router.py:191-215 | a signal between two open rows of a meeting with one socket each is appended to the log of the other and changes nothing else |
| Relay.UnsignalledGrowth | api/app/realtime/router.py:191-215 | no other step puts a signal of one into the log of the other |
| Witnesses.TheTwoBegin | api/app/realtime/router.py:72-102 | a run at which the end-to-end results begin: create, join, connect, join, connect |
| SignalingClient.EventWrites | web/src/lib/webrtc/SignalingClient.ts:63-206 | what each event leaves of socket, status, timer, heartbeat and count, field by field |
| SignalingClient.ReconnectNeverWedgesOrDoubles | web/src/lib/webrtc/SignalingClient.ts:63-101 | between connect from closed and close there is either one live socket or one armed retry timer, never both or neither; after close no timer of either kind |
| SignalingClient.ConnectingTwiceDoubles | web/src/lib/webrtc/SignalingClient.ts:63-66 | connecting keeps exactly one if and only if the status was closed |
| SignalingClient.AttemptCountsCloses | web/src/lib/webrtc/SignalingClient.ts:150-168 | the counter is the number of closes since the last open or caller close, and an armed timer waits for the matching table entry |
| SignalingClient.CloseArmsTheNextDelay | web/src/lib/webrtc/SignalingClient.ts:138-160 | a socket closing on a running client arms the delay for the closes so far |
| SignalingClient.DelaysGrowToTheCap | web/src/lib/webrtc/SignalingClient.ts:18-19 | delays start at one second, never shrink and never exceed thirty |
| SignalingClient.WriteLosesIff | web/src/lib/webrtc/SignalingClient.ts:176-190 | a single write loses its frame exactly where no socket or a dead one takes it, and requeues it exactly where it throws |
| SignalingClient.EveryFrameIsWrittenOrQueued | web/src/lib/webrtc/SignalingClient.ts:75-81 | over any sends, drops, reconnects and failing writes every frame is written once or still queued, and none is swallowed |
| SignalingClient.FramesStayInOrderIff | web/src/lib/webrtc/SignalingClient.ts:170-190 | frames written across all sockets followed by the queue are the frames sent, in order, with nothing queued on an open socket, at every point of a run if and only if no write to an open or opening socket throws in it |
| SignalingClient.HappenKeepsOrderIff | web/src/lib/webrtc/SignalingClient.ts:170-206 | the same of one event, for a client in order: the condition is the throw of a write actually made |
| SignalingClient.ThrowingWriteIsOvertaken | web/src/lib/webrtc/SignalingClient.ts:185-189 | a write that throws stays queued on the open socket and is overtaken by the next frame, which shows exactly when the two differ |
| SignalingObject.ReconnectingClient.Connect | web/src/lib/webrtc/SignalingClient.ts:63-66 | opens one more socket |
| SignalingObject.ReconnectingClient.Send | web/src/lib/webrtc/SignalingClient.ts:75-81 | writes to an open socket, queues otherwise |
| SignalingObject.ReconnectingClient.Close | web/src/lib/webrtc/SignalingClient.ts:83-101 | detaches the socket, drops both timers and the attempt count, keeps the queue |
| SignalingObject.ReconnectingClient.Flush | web/src/lib/webrtc/SignalingClient.ts:170-174 | the loop tries every queued frame once; those whose write throws are queued again |
| SignalingObject.ReconnectingClient.OnOpen | web/src/lib/webrtc/SignalingClient.ts:119-126 | resets the count, flushes, starts the heartbeat |
| SignalingObject.ReconnectingClient.OnClose | web/src/lib/webrtc/SignalingClient.ts:138-142 | stops the heartbeat and schedules one retry unless the caller closed |
| SignalingObject.ReconnectingClient.ScheduleReconnect | web/src/lib/webrtc/SignalingClient.ts:150-160 | arms at most one timer |
| SignalingObject.ReconnectingClient.Write | web/src/lib/webrtc/SignalingClient.ts:176-190 | one attempt on the current socket |
| SignalingObject.ReconnectingClient.Dispatch | web/src/lib/webrtc/SignalingClient.ts:63-206 | every callback of socket and timers is one event of the model |
| Listings.ListedIff | api/app/services/meeting_service.py:247-276 | over its pages a listing shows a meeting exactly when it is the host's own and upcoming means scheduled or live with a start not yet past, recent means ended, a day means not cancelled and starting on it, all means all |
| Listings.UpcomingChangesIff | api/app/services/meeting_service.py:249-253 | along server runs: an upcoming meeting leaves the listing exactly when it is cancelled, ends, or the clock passes its start, neither at a start nor at its host's early arrival; it comes on exactly when created with a start, rescheduled, or restarted before its start |
| Listings.DayChangesIff | api/app/services/meeting_service.py:268-273 | a day loses a meeting exactly when it is cancelled or moved off it, and gains one exactly when created or moved onto it |
| Listings.RecentChangesIff | api/app/services/meeting_service.py:254-257 | recent gains a meeting exactly when it ends and loses it exactly when it starts again |
| Listings.AllChangesIff | api/app/services/meeting_service.py:274-275 | the listing of all gains what its host creates and loses nothing |
| Listings.OnlyOwnMeetingsAreShown | api/app/services/meeting_service.py:247-247 | nobody else's meeting is ever on a listing |
| Pagination.PageIsFull | api/app/services/meeting_service.py:283-296 | a page holds the limit, clamped to between one and a hundred, or all there is |
| Pagination.FiltersAreRefusedFor | api/app/services/meeting_service.py:258-280 | a day listing wants a date, a well-formed one, and a filter must be one of the four |
| Pagination.StableRowIsVisitedOnceIff | api/app/services/meeting_service.py:228-320 | how often a finished walk of any listing lists a row that matches under an unchanged key throughout, whatever happens to the others: once, once more for each anchor that had passed it and is found before it by the next request, once less for each that had not reached it and is found past it; so exactly once if and only if these are equally many |
| Pagination.StableRowIsVisitedOnce | api/app/services/meeting_service.py:228-320 | so it is listed exactly once while anchors keep their keys, whatever is inserted or changed between pages and even if an anchor stops matching |
| Pagination.WalkIsSorted | api/app/services/meeting_service.py:228-320 | the rows visited are in strict sort order across all pages |
| Pagination.WalkTerminates | api/app/services/meeting_service.py:283-296 | while ids and sort keys stand, whatever becomes of statuses, titles and the clock, a walk ends within one request more than there are rows ahead of its cursor |
| Pagination.WalkEnds | api/app/services/meeting_service.py:283-296 | it is enough that nothing new turns up ahead of the cursor and that anchors keep their keys |
| Pagination.WalkTerminatesOnceInsertionsStop | api/app/services/meeting_service.py:283-296 | so a walk under way when insertions stop ends within one request more than there are rows then |
| Pagination.EnoughRequestsListEverything | api/app/services/meeting_service.py:228-320 | on a fixed table and clock, one request more than there are rows lists exactly the whole filtered, sorted list |
| Pagination.FixedWalkIsTheListing | api/app/services/meeting_service.py:228-320 | on a table and clock that stand still, the pages put together are the whole filtered, sorted list |
| Pagination.HasMoreIsExact | api/app/services/meeting_service.py:283-296 | in an answered request there is another page exactly when some selected row is not on this one |
| Pagination.RowsHold | api/app/services/meeting_service.py:241-284 | the query, without an anchor or behind one that has a key, returns exactly the selected rows, each once, in strict order |
| Pagination.RequestFailsIff | api/app/services/meeting_service.py:299-320 | a request fails with an unhandled error exactly when its anchor exists and has no key, and is refused exactly when the filter cannot be paged or the anchor is gone |
| MeetingPages.WalkOverAllMeetings | api/app/services/meeting_service.py:274-275 | however the server runs on between the pages, a walk over all of a host's meetings is in strict order, and if it finishes visits each meeting present at its start exactly once; with more requests than the host had meetings and no meeting created in the very instant of an older one, it does finish |
| MeetingPages.WalkAlongRunEnds | api/app/services/meeting_service.py:274-296 | that along a server run later meetings sort before the cursor, ties apart, so insertions do not prolong the walk |
| MeetingPages.WalkOverRecentMeetings | api/app/services/meeting_service.py:252-255 | a finished walk over the ended meetings lists one that is not touched itself exactly once if and only if no anchor at or past it is ended again, at a reading that sorts it before that meeting, by the next request; with no anchor touched it is in strict order, and finishes, ties apart |
| MeetingPages.NextRequestFailsIff | api/app/services/meeting_service.py:299-314 | along a run the request after an ended meeting fails exactly if that was restarted meanwhile and not ended after |
| MeetingPages.EndStampMovesIff | api/app/services/meeting_service.py:522-566 | one step moves the key of an ended meeting exactly when it is an allowed restart, or a host frame ending the meeting again at another clock reading |
| MeetingPages.EndStampIs | api/app/services/meeting_service.py:522-566 | what each step leaves of an end stamp, read off the state before it: the present if it ends the meeting, by REST or by frame, nothing if it restarts it, else what was there |
| ScheduledPages.WalkOverScheduledMeetings | api/app/services/meeting_service.py:246-251 | a finished walk over the upcoming meetings or those of a day lists one that stays listed under one start exactly once if and only if edits move as many anchors back over it as on over it |
| ScheduledPages.StartMovesIff | api/app/services/meeting_service.py:452-507 | one step moves a scheduled start exactly when it is an accepted edit that names another |
| ScheduledPages.StartIsTheLastEdit | api/app/services/meeting_service.py:452-507 | between two points of a run the start becomes the one the last accepted edit names, or stays |
| Witnesses.PostponingSkipsARow | api/app/services/meeting_service.py:274-292 | a run in which an anchor is postponed between two requests for upcoming meetings, and a meeting nobody touched is never listed |
| Witnesses.SecondEndRepeatsARow | api/app/services/signaling_service.py:250-274 | a run in which ending a meeting twice by the host frame makes a recent walk list an untouched row twice |
| MeetingPages.EveryTableIsStamped | api/app/services/meeting_service.py:252-255 | in every reachable table the key of the recent listing is never null |
| MeetingPages.RestartFailsTheNextRequest | api/app/services/meeting_service.py:299-320 | restarting the meeting that anchors a page of the recent listing makes the next request fail |
| MemoryCache.SetIsFoundIff | api/app/cache/memory.py:33-48 | on answers alone, over every run with a clock that does not go back: a value set for so many seconds is found, unchanged, exactly before these have passed, and one set without a limit always, while nothing writes its key |
| MemoryCache.IncrementsExpireAsSetIff | api/app/cache/memory.py:54-69 | increments that come in time do not change when the key is last found |
| MemoryCache.IncrementAfterSet | api/app/cache/memory.py:54-69 | an increment answers one more than a live number set before, and one after a dead value or one that is no number |
| MemoryCache.DeletedIsNotFound | api/app/cache/memory.py:50-52 | a deleted or cleared key is not found until it is written again |
| MemoryCache.DeadEntriesAreGone | api/app/cache/memory.py:33-83 | dead entries do not pile up: what a reading or a write leaves in the cache expired less than one sweep interval ago, if at all |
| MemoryCache.SweepsAreAnIntervalApart | api/app/cache/memory.py:75-83 | there are no more sweeps than sweep intervals have passed |
| MemoryCache.DigitsReadIff | api/app/cache/memory.py:61-64 | digits with single underscores between them are read, and nothing else |
| MemoryCache.SignsAndBlanks | api/app/cache/memory.py:61-64 | blanks around a number and a plus sign do not count, and a minus sign negates |
| MemoryCache.SweepingIsUnobservable | api/app/cache/memory.py:33-83 | after any operations at times that do not go back, whatever the sweep interval, the next one is answered as by a map that never drops anything |
| MemoryCache.IncrKeepsTheDeadline | api/app/cache/memory.py:54-69 | an incremented live entry dies when it would have died |
| MemoryCache.IncrementsCount | api/app/cache/memory.py:54-69 | the increments of an absent key return 1, 2, 3 and so on, whatever happens to other keys and sweeps in between |
| MemoryCache.TextReadsBack | api/app/cache/memory.py:61-68 | every integer written as text is read back |
| MemoryCache.TtlCache.MaybeSweep | api/app/cache/memory.py:75-83 | the deletion loop drops exactly the expired entries, at most once an interval |
| MemoryCache.TtlCache.Lookup | api/app/cache/memory.py:33-42 | answers and forgets as the model step |
| MemoryCache.TtlCache.Store | api/app/cache/memory.py:44-48 | stores with the deadline read after the sweep |
| MemoryCache.TtlCache.Increment | api/app/cache/memory.py:54-69 | counts on from a live readable entry, from nothing otherwise |
| RecentIds.TheFiveMostRecent | web/src/components/join/recentMeetingIds.ts:50-69 | after any calls from an empty working store the list is the five most recently used distinct ids, newest first |
| RecentIds.RecencyIsByLastUse | web/src/components/join/recentMeetingIds.ts:54-57 | the untruncated reference list holds exactly the used ids, each once, in order of last use |
| RecentIds.PromotionCommutes | web/src/components/join/recentMeetingIds.ts:54-57 | truncating commutes with moving to the front |
| RecentIds.SnapshotIsAlwaysFreshIff | web/src/components/join/recentMeetingIds.ts:80-110 | in any run of calls, writes and clears, here and in other tabs, with writing working at some calls and failing at others, the cached snapshot is at all times what would be read back exactly when every event is harmless |
| RecentIds.HappenIsFreshIff | web/src/components/join/recentMeetingIds.ts:87-104 | which one event is exactly when it is not a write that failed with something to change, nor a clear or write elsewhere that changes the list behind a snapshot unheard |
| RecentIds.RememberIsFreshIff | web/src/components/join/recentMeetingIds.ts:59-66 | remembering leaves a fresh snapshot exactly when the write worked or had nothing to change |
| RecentIds.ReadIsShortAndClean | web/src/components/join/recentMeetingIds.ts:29-44 | whatever the storage holds, at most five non-empty digit strings are read |
| RecentIds.DigitsAreKept | web/src/components/join/recentMeetingIds.ts:29-44 | of a text mixing digits and anything else the digits are kept, in order |
| RecentIds.ItemsAreRead | web/src/components/join/recentMeetingIds.ts:29-44 | of a stored list what is no text or has no digit is skipped, and the rest kept in order |
| RecentIds.WhatIsRead | web/src/components/join/recentMeetingIds.ts:29-44 | nothing is read without a window, from a storage that cannot be read or where no list is stored, else the first five |
| RecentIds.EventWrites | web/src/components/join/recentMeetingIds.ts:50-110 | what each event stores, leaves of the snapshot and of the subscriptions: a remembered id comes first and is stored exactly when writing works, and a snapshot is read anew only when there is none |
| RecentIds.RecentList.RememberId | web/src/components/join/recentMeetingIds.ts:50-69 | stores, replaces the snapshot array and notifies every listener once, or does nothing without a digit |
| RecentIds.RecentList.SnapshotOf | web/src/components/join/recentMeetingIds.ts:107-110 | the same array again and again until something changes |
| RecentIds.RecentList.OnStorage | web/src/components/join/recentMeetingIds.ts:87-104 | a write of another tab drops the snapshot of every subscriber |
| RecentIds.RecentList.OnStorageCleared | web/src/components/join/recentMeetingIds.ts:87-104 | an event without the key is ignored: the snapshot stays as it was |
| RecentIds.RecentList.Subscribe | web/src/components/join/recentMeetingIds.ts:87-104 | the listener hears of storage events from now on |
| RecentIds.RecentList.Unsubscribe | web/src/components/join/recentMeetingIds.ts:87-104 | and no longer |

## Left out

- Interleaving at the `await`s of server handlers: connect and each handler are atomic here, as are service calls. `Handshake` cuts connect at its first `await` and keeps the results on status, stamps, cap, closing stamps and rooms; those on bindings, teardowns, logs and clients are about whole connects.
- Passcodes, invite tokens, meeting numbers and their collisions: a passcode check is one boolean and the meeting number is the meeting's id.
- Topic, duration and encryption fields of meetings, and all reads that only serialise: they carry no state of the protocol.
- Chat persistence, trimming and history: a chat frame carries an opaque body and is broadcast; the message list is an object of its own (`StoreObject`), to which the client of the composed results does not append.
- Sockets refused at connect time: they are sent a close code and no log is kept for them.
- JSON shape of frames, close codes, and malformed payload values other than a missing target.
- The content of descriptions, candidates and media: opaque ids; `replaceLocalTrack`, track callbacks and connection-state callbacks carry no protocol state.
- Remote streams, connection states, panels and the active speaker of the store: they do not affect the roster.
- A socket factory that throws, and a status listener that calls back into the client while it is notified.
- The order in which the browser settles operations on one connection: any order is allowed here, so the interleaving results hold for its first-in first-out queue too.
- Where offers come from in the glare model: a side may offer whenever it is stable, again and again, which covers more runs than the source has, since it offers from `addPeer` alone. `Glare.ConvergesIff` lets only initiators offer.
- End to end, each peer manager method is one step, as in the glare model; `Uninterrupted` ties that to the model cut at every `await`. A run in which one of the two reconnects is outside these results.
- The order of ids among meetings with equal sort keys: ids count up here and are random in the source, so no result on insertions uses it; `MeetingPages.NoTies` is the condition instead.
- Unicode blanks and digits in cached counters; cached times are real numbers, without rounding.
- React rendering, authentication, rate limiting, seed data, preferences and scheduling forms.
