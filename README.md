# sync_beats playback sync, modelled in Dafny

sync_beats is a React client for listening rooms. When a room has several
devices open, one device is the **host** and the others are **listeners**.
The host plays, pauses and seeks. Each of those actions is announced over a
socket as "play-song", "pause-song" or "seek-song". The server answers with
"sync-state", which drives every listener's `<audio>` element. A listener
cannot play a song itself. Instead it sends "request-play". The host sees
the request in a single slot and can Accept or Reject it.

This project models the client's side of that protocol as a sequential state
machine, because handlers never run at the same time. Around it sit the
decisions that gate who may do what:

- song-card and room-card permissions;
- the owner's join-request list;
- the route guards.

Layout: one module per source file, plus three modules that span files
(`Wire`, `Room` and `Subscriptions`):

- `wire.dfy` (`Wire`): the records the client exchanges with the server, and
  the outbound socket messages (`Msg`).
- `socket_context.dfy` (`SocketContext`): the provider holds the socket and
  the host role. `SocketProvider` is a class. Its role register changes only
  through "host-status".
- `room_dashboard.dfy` (`RoomDashboard`): the room page. It holds the current
  song, the room and the songs, plus the fallbacks when a fetch fails. It
  also has the page's two socket handlers and `isOwner`.
- `audio_player.dfy` (`AudioPlayer`): the player component.
  - Every handler is a method of the `Player` class.
  - `AudioElement` is a class whose fields are changed in place.
  - Each method is proved to move the value snapshot `Device` exactly as a
    specification function says (`PlaySpec`, `SyncSpec`, `RespondSpec`, …).
- `song_card.dfy` (`SongCard`): the play button, which plays on the host and
  requests on a listener. Also the "Playing" badge and the Remove permission.
- `room.dfy` (`Room`): one device as a whole.
  - `Step` applies one input to a `Device`. An input is a control, a song
    button, a socket event, or the browser reading metadata or playing on.
    `Dispatch` runs the handlers, then the component re-renders, which
    mounts the `<audio>` element once there is a song to render.
  - `Step` delivers every "sync-state" to the player's handler, and to the
    page's whenever there is a user. That is the dispatch with the
    corrected cleanup of the finding below; the code as written is
    modelled in `Subscriptions`.
  - `Deliver` sends the input to the real handler methods, and is proved to
    agree with `Step`.
  - Lemmas over arbitrary runs of inputs state the protocol's rules.
- `room_card.dfy` (`RoomCard`): ownership, membership, the Enter control and
  the member count.
- `join_requests.dfy` (`JoinRequests`): the filter-and-flatten loop that
  builds the owner's request list, and the Accept/Reject URL.
- `app.dfy` (`App`): the route table with its two guards.
- `subscriptions.dfy` (`Subscriptions`): the socket listener table. This is
  where the finding below is modelled.

Conventions:

- JavaScript `undefined` and `null` are `Option.None`.
  - Optional-chaining comparisons such as `room.owner?._id === user?._id`
    are comparisons of `Option` values. So when both sides are absent they
    are equal, exactly as in the code.
- The element's `duration` is `Option<real>`, where `None` is the NaN of a
  file whose metadata the browser has not read yet.
  - Every assignment to `src` starts a load, which makes the duration
    unknown again.
  - The browser's own work on the element is two inputs of the device:
    "loadedmetadata" (`MetadataLoaded`), which sets the duration of the
    file at `src`, and playback (`Playback`), which moves a playing
    element's position forward.
  - `duration || 1` treats `None` and `0` as 1.
- The `<audio>` element is created only by rendering. The player returns
  `null` until `songToRender` is set, so there is no element before that.
  The element then mounts with no source, at 0, paused and with an unknown
  duration.
- The element keeps a `loads` counter that counts assignments to `src`. This
  makes "loads the URL only if it differs" observable.
- I/O is replaced by parameters:
  - a REST response is an `Option` argument, where `None` means the request
    threw;
  - the outcome of the Accept/Reject POST is a `bool`;
  - socket sends are appended to an `outbox` sequence.

Behaviours a reader might expect that this code does not have, and that the
model therefore leaves out:

- A listener does not measure drift. Every "sync-state" sets the position.
- Seek is not clamped. Progress is not clamped either.
- A listener sends every play request. It keeps no per-song pending flag.
- The host has one request slot, not a queue. A new request overwrites the
  slot.
- There is no backlog of pending requests at join.
- The loaded song is compared by URL (`src !== song.url`), not by id.

## Model

| member | source | states |
|---|---|---|
| Wire.UserId | src/components/SongCard.jsx:23 | `user?._id` is present exactly when there is a user, and is then that user's id |
| Wire.IsAdmin | src/components/SongCard.jsx:23 | no contract; `user?.role === "admin"`, also at src/pages/RoomDashboard.jsx:52 and src/App.jsx:62. Used by `CanDelete`, `IsOwner` and `AdminRoute` |
| Wire.OrZero | src/components/AudioPlayer.jsx:40 | `currentTime \|\| 0`: an absent position reads as 0, a present one as itself |
| SocketContext.StepRole | src/context/SocketContext.jsx:35-37 | no contract; one provider event's effect on the role. Specified by the two lemmas below |
| SocketContext.RoleAfter | src/context/SocketContext.jsx:35-37 | no contract; the role after a sequence of events. Specified by the two lemmas below |
| SocketContext.RoleWithoutHostStatus | src/context/SocketContext.jsx:35-37 | over any sequence of provider events with no "host-status", the role is the one it started with |
| SocketContext.RoleIsLastHostStatus | src/context/SocketContext.jsx:35-37 | after any sequence of events, the role is the value carried by the last "host-status", taken verbatim |
| SocketContext.SocketProvider.constructor | src/context/SocketContext.jsx:9-10 | the provider starts with no socket and not host |
| SocketContext.SocketProvider.OnUser | src/context/SocketContext.jsx:12-25 | without a user no socket is made and the role is untouched; with a user the socket exists |
| SocketContext.SocketProvider.OnHostStatus | src/context/SocketContext.jsx:35-37 | "host-status" sets the role to the received value and changes nothing else |
| SocketContext.SocketProvider.Handle | src/context/SocketContext.jsx:12-37 | one provider event moves the role as `StepRole` says; connect and error events leave it |
| SocketContext.SocketProvider.Emit | src/components/SongCard.jsx:40 | `socket.emit` appends exactly that message to the outbox and nothing else |
| RoomDashboard.AdoptResponse | src/pages/RoomDashboard.jsx:59-63 | a response makes its song current exactly when it is accepted and addressed to this user; otherwise the current song is kept |
| RoomDashboard.AdoptSync | src/pages/RoomDashboard.jsx:66-70 | a sync payload with a song makes it current; without a song the current song is kept |
| RoomDashboard.AdoptIdempotent | src/pages/RoomDashboard.jsx:59-70 | delivering the same response or the same sync payload twice has the effect of delivering it once |
| RoomDashboard.IsOwner | src/pages/RoomDashboard.jsx:52 | owner exactly when admin or the room's owner; with no user, exactly when there is no room or it has no owner (both sides undefined) |
| RoomDashboard.Page.constructor | src/pages/RoomDashboard.jsx:17-21 | no songs, no room, loading, no error, no current song |
| RoomDashboard.Page.FetchRoom | src/pages/RoomDashboard.jsx:23-31 | a fetched room is stored; a failure stores no room and the error "Room not found" |
| RoomDashboard.Page.FetchSongs | src/pages/RoomDashboard.jsx:33-40 | fetched songs are stored; a failure leaves the list empty |
| RoomDashboard.Page.LoadData | src/pages/RoomDashboard.jsx:42-50 | room then songs are fetched with the fallbacks above, and loading ends |
| RoomDashboard.Page.SetCurrentSong | src/components/SongCard.jsx:39 | `setCurrentSong(song)` makes exactly that song current |
| RoomDashboard.Page.OnRequestPlayResponse | src/pages/RoomDashboard.jsx:59-63 | the page's current song becomes `AdoptResponse` of the old one |
| RoomDashboard.Page.OnSyncState | src/pages/RoomDashboard.jsx:66-70 | the page's current song becomes `AdoptSync` of the old one |
| AudioPlayer.DurationOr1 | src/components/AudioPlayer.jsx:95 | `duration \|\| 1` is never 0. It is the duration whenever that is known and non-zero, and 1 when the duration is unknown (NaN) or 0 |
| AudioPlayer.Loaded | src/components/AudioPlayer.jsx:39 | assigning `src` sets the source, makes the duration unknown and counts one load; position and play state stay |
| AudioPlayer.Progress | src/components/AudioPlayer.jsx:95 | no contract; the progress percentage, specified through `TimeUpdateSpec` and `SyncSpec` |
| AudioPlayer.SeekTime | src/components/AudioPlayer.jsx:132 | no contract; the slider position, specified through `SeekSpec` |
| AudioPlayer.ElementMounted | src/components/AudioPlayer.jsx:139 | no contract; the element exists exactly when there is a song to render. `Room.RunKeepsElementMounted` proves that this holds in every state reached |
| AudioPlayer.RenderSpec | src/components/AudioPlayer.jsx:139-198 | a render with a song to show and no element mounts an empty, paused element. It changes nothing else, and an element that already exists is kept as it is |
| AudioPlayer.InitialSpec | src/components/AudioPlayer.jsx:12-22 | at mount the element exists exactly when the page already has a current song, and is then empty. The player is not playing, its progress is 0, and it has no synced song and no request |
| AudioPlayer.SongToRender | src/components/AudioPlayer.jsx:22 | the page's current song when there is one, otherwise the last synced song |
| AudioPlayer.HostWithAudio | src/components/AudioPlayer.jsx:118 | no contract; the guard `isHost && audioRef.current` of `pause` and `seek` (lines 118 and 130). Used by `PlaySpec`, `PauseSpec` and `SeekSpec` |
| AudioPlayer.SeekAllowed | src/components/AudioPlayer.jsx:132 | no contract; a host's seek multiplies by the duration, so the duration must be known |
| AudioPlayer.RespondAllowed | src/components/AudioPlayer.jsx:76-77 | no contract; accepting writes the element's source, so there must be an element |
| AudioPlayer.PlaySpec | src/components/AudioPlayer.jsx:99-115 | no change unless host with a song and an element. Then, if the element holds another source, the URL is loaded and rewound, with its duration unknown; a resume keeps the element as it was. The element plays, isPlaying is true, and exactly one "play-song" is sent with the element's position afterwards. Nothing else changes |
| AudioPlayer.PauseSpec | src/components/AudioPlayer.jsx:117-127 | no change unless host with an element; then it pauses, isPlaying is false, and exactly one "pause-song" is sent with the current position |
| AudioPlayer.SeekSpec | src/components/AudioPlayer.jsx:129-137 | no change unless host with an element; then the position becomes value/100 × duration, progress becomes value (unclamped), and one "seek-song" is sent carrying that same new position |
| AudioPlayer.TimeUpdateSpec | src/components/AudioPlayer.jsx:92-97 | progress becomes position / (duration \|\| 1) × 100 when there is an element; otherwise no change |
| AudioPlayer.SyncSpec | src/components/AudioPlayer.jsx:32-48 | no song or no element: no change. A listener adopts the synced song. It loads the URL only if it differs, which makes the duration unknown. It moves to the position (0 if absent) and plays or pauses as told. The host's element is untouched. Either way isPlaying follows the payload, and progress is the position over the element's duration after that, or over 1 right after a load. Nothing is sent |
| AudioPlayer.IncomingSpec | src/components/AudioPlayer.jsx:54-58 | the request slot is overwritten with the new request; nothing else changes |
| AudioPlayer.RespondSpec | src/components/AudioPlayer.jsx:63-90 | an empty slot: no change. Otherwise the answer is always sent. Acceptance also makes the song current, reloads it at 0 with its duration unknown, plays it, sets isPlaying and sends "play-song" at 0. A rejection touches nothing else. The slot is cleared either way |
| AudioPlayer.JoinSpec | src/components/AudioPlayer.jsx:24-27 | "join-room" with the room and user id is sent exactly when there is a socket and a user |
| AudioPlayer.MetadataSpec | src/components/AudioPlayer.jsx:198 | "loadedmetadata" on an element with a source sets exactly its duration. Without an element or a source, no change |
| AudioPlayer.PlaybackSpec | src/components/AudioPlayer.jsx:198 | a playing element with a source moves to the given position and nothing else changes; any other element stays |
| AudioPlayer.AudioElement.constructor | src/components/AudioPlayer.jsx:13 | an element with the given source, position, duration and play state, not yet reloaded |
| AudioPlayer.AudioElement.Load | src/components/AudioPlayer.jsx:39 | `audio.src = url` moves the element as `Loaded` says |
| AudioPlayer.AudioElement.LoadedMetadata | src/components/AudioPlayer.jsx:198 | the duration becomes known and nothing else changes |
| AudioPlayer.AudioElement.Advance | src/components/AudioPlayer.jsx:198 | the position moves on and nothing else changes |
| AudioPlayer.Player.constructor | src/components/AudioPlayer.jsx:12-22 | the player starts as `InitialSpec` says. Its element is a new one, present only when the page already has a current song |
| AudioPlayer.Player.Render | src/components/AudioPlayer.jsx:139-198 | the device moves as `RenderSpec` says. A created element is new |
| AudioPlayer.Player.OnLoadedMetadata | src/components/AudioPlayer.jsx:198 | the device moves as `MetadataSpec` says |
| AudioPlayer.Player.OnPlayback | src/components/AudioPlayer.jsx:198 | the device moves as `PlaybackSpec` says |
| AudioPlayer.Player.Join | src/components/AudioPlayer.jsx:24-27 | the device moves as `JoinSpec` says |
| AudioPlayer.Player.OnSyncState | src/components/AudioPlayer.jsx:32-48 | the device moves as `SyncSpec` says, writing the element in place |
| AudioPlayer.Player.OnIncomingPlayRequest | src/components/AudioPlayer.jsx:54-58 | the device moves as `IncomingSpec` says |
| AudioPlayer.Player.HandleRequestResponse | src/components/AudioPlayer.jsx:63-90 | the device moves as `RespondSpec` says |
| AudioPlayer.Player.HandleTimeUpdate | src/components/AudioPlayer.jsx:92-97 | the device moves as `TimeUpdateSpec` says |
| AudioPlayer.Player.Play | src/components/AudioPlayer.jsx:99-115 | the device moves as `PlaySpec` says |
| AudioPlayer.Player.Pause | src/components/AudioPlayer.jsx:117-127 | the device moves as `PauseSpec` says |
| AudioPlayer.Player.Seek | src/components/AudioPlayer.jsx:129-137 | the device moves as `SeekSpec` says |
| SongCard.CanDelete | src/components/SongCard.jsx:22-23 | Remove is offered exactly to an admin or to the user who added the song; with no user, exactly when the song has no `addedBy` |
| SongCard.ShowsPlayingBadge | src/components/SongCard.jsx:50 | the badge shows exactly when the current song has this song's id |
| SongCard.OneBadgePerPlaylist | src/components/SongCard.jsx:50 | in a playlist with distinct ids, at most one card shows the badge |
| SongCard.Press | src/components/SongCard.jsx:35-48 | nothing without a room id, socket or user. The host makes the song current and sends one "play-song" at 0. A listener keeps the current song and sends one "request-play" naming itself. At most one message per press, with no suppression |
| SongCard.PlaySong | src/components/SongCard.jsx:35-48 | the outbox and the page's current song change exactly as `Press` says |
| Room.Enabled | src/pages/RoomDashboard.jsx:55-79 | no contract; the inputs a handler can receive in a state. Socket events need a socket; "request-play-response" needs a user and "incoming-play-request" the host role. The request dialog is shown only on the host. The browser reads metadata only of an element with a source, and plays on only an element that is playing |
| Room.Dispatch | src/pages/RoomDashboard.jsx:55-79 | no contract; the input's handlers, as the `AudioPlayer` and `SongCard` specification functions say. A "sync-state" reaches the page's handler only with a user (line 56) and the player's always. See `Room.Deliver` |
| Room.Step | src/components/AudioPlayer.jsx:139-198 | no contract; `Dispatch`, then a render. Specified by the `Room` lemmas below |
| Room.Runs | src/pages/RoomDashboard.jsx:55-79 | no contract; every input of a run is enabled when it arrives |
| Room.Run | src/pages/RoomDashboard.jsx:55-79 | no contract; the device after a run of inputs. Specified by the `Room` lemmas below |
| Room.Presses | src/components/SongCard.jsx:35 | no contract; the number of song-button presses in a run. Used by `ListenerOnlyRequests` |
| Room.StepKeepsElementMounted | src/components/AudioPlayer.jsx:139-198 | no input removes the element or the song to render, and the render mounts the element once there is a song: "element exists exactly when a song renders" is kept |
| Room.RunKeepsElementMounted | src/components/AudioPlayer.jsx:139-198 | the same invariant holds over any run of inputs |
| Room.FirstSyncFindsNoElement | src/components/AudioPlayer.jsx:34 | a first "sync-state" with a song, on a device with a user and nothing rendered, makes the song current. The player's handler returns for lack of an element, so playing state, progress, synced song and outbox are unchanged, and the element then mounts empty and paused |
| Room.SyncWithoutUserKeepsPageSong | src/pages/RoomDashboard.jsx:56 | without a user the page has no "sync-state" handler, so a "sync-state" leaves its current song as it was |
| Room.RoleOnlyFromHostStatus | src/context/SocketContext.jsx:35-37 | over any run of inputs without "host-status", the role never changes |
| Room.ListenerControlsInert | src/components/AudioPlayer.jsx:100 | on a listener in a reachable state (the element is mounted exactly when a song renders), any sequence of play, pause and seek presses leaves the whole device unchanged: no element change, no isPlaying or progress change, nothing sent |
| Room.ListenerOnlyRequests | src/components/SongCard.jsx:41-47 | while a device stays a listener, its earlier messages stay and every new one is a "request-play", one per song-button press once it has a room, socket and user |
| Room.ListenerAudioOnlyFromSync | src/components/AudioPlayer.jsx:36-42 | a listener's element changes only through "sync-state". The browser may move its position and fill in its duration, but its source, loads and play state stay. Without those browser inputs the element stays exactly as it was, except for its mounting, empty, when a song first renders |
| Room.ListenerFollowsSync | src/components/AudioPlayer.jsx:36-42 | one "sync-state" with a song puts a listener's element on that song, at that position, playing or paused as told |
| Room.ListenerConvergesOnLastSync | src/components/AudioPlayer.jsx:36-42 | after the last "sync-state" and any inputs that follow, the listener's element still holds that song and play state, and that position until the browser plays on |
| Room.LastRequestWins | src/components/AudioPlayer.jsx:56-57 | the host's slot holds the last incoming request until an Accept or Reject: there is no queue |
| Room.SlotKept | src/components/AudioPlayer.jsx:56-57 | only a new request or an answer changes the slot |
| Room.AcceptAndReject | src/components/AudioPlayer.jsx:63-90 | Accept sends the answer and then one "play-song" at 0, and the host plays the requested song from 0. Reject sends only the answer and keeps all playback state. The slot ends empty |
| Room.ProgressInvertsSeekTime | src/components/AudioPlayer.jsx:95 | with a known non-zero duration, the time-update formula maps the sought position back to the slider value (line 132) |
| Room.SeekThenTimeUpdate | src/components/AudioPlayer.jsx:129-137 | a host's seek followed by "timeupdate" leaves the element at value/100 × duration and progress at the slider value, having sent one "seek-song" |
| Room.PlaybackThenTimeUpdate | src/components/AudioPlayer.jsx:92-97 | after the browser plays on to a time, "timeupdate" sets progress to that time over the duration (over 1 while it is unknown) and changes nothing else |
| Room.HostSeeksAfterMetadata | src/components/AudioPlayer.jsx:99-137 | a host whose page has a song can play it, learn its duration and seek. The element ends at the sought share of the duration, progress at the slider value, and the outbox gains "play-song" at 0 and then "seek-song" |
| Room.ListenerSyncProgress | src/components/AudioPlayer.jsx:45-47 | a listener already on the synced file, with a known duration, shows the position over that duration. One that has to load the song divides by 1, because the duration is unknown right after the load |
| Room.Deliver | src/pages/RoomDashboard.jsx:55-79 | dispatching an input to the page's, the cards' and the player's handlers, then re-rendering, moves the device exactly as `Step` says. A "sync-state" reaches the player's handler, and the page's whenever there is a user: that is the corrected dispatch (see Findings) |
| RoomCard.IsOwner | src/components/RoomCard.jsx:12 | owner exactly when the room has an owner whose id is the user's |
| RoomCard.MemberKey | src/components/RoomCard.jsx:14 | no contract; the key a member is compared by. Specified through `IsMember` and `IsMemberById` |
| RoomCard.AnyMemberHasKey | src/components/RoomCard.jsx:13-15 | `some`: true exactly when some member's key equals the id |
| RoomCard.IsMember | src/components/RoomCard.jsx:13-15 | false without a member list; otherwise true exactly when some member's key is the user's id |
| RoomCard.IsMemberById | src/components/RoomCard.jsx:13-15 | for a real user id, membership holds exactly when some member, populated or bare, carries that id |
| RoomCard.EntryControl | src/components/RoomCard.jsx:53-69 | Enter, linking to "/room/" + id, exactly for a member or the owner; otherwise Request Join |
| RoomCard.MemberCount | src/components/RoomCard.jsx:49 | the member-list length, or 1 when the list is missing or empty; always at least 1 |
| JoinRequests.Owned | src/pages/JoinRequests.jsx:28-30 | exactly the fetched rooms whose owner id equals the user's id are kept |
| JoinRequests.OwnedSingle | src/pages/JoinRequests.jsx:28-30 | one room is kept exactly when its owner is the user |
| JoinRequests.OwnedAppend | src/pages/JoinRequests.jsx:28-30 | the filter splits over concatenation. So it keeps the order and the repeats of the fetched rooms: it returns the subsequence of the user's rooms |
| JoinRequests.OwnedAllOrNone | src/pages/JoinRequests.jsx:28-30 | when the user owns every room, all of them are kept in order; when the user owns none, none are kept |
| JoinRequests.Flatten | src/pages/JoinRequests.jsx:32-43 | no contract; the list the loops build. Specified by the `Flatten…` lemmas and by `CollectPending` |
| JoinRequests.RequestCount | src/pages/JoinRequests.jsx:32-43 | no contract; the owned rooms' total number of requests. See `FlattenLength` |
| JoinRequests.EntriesFor | src/pages/JoinRequests.jsx:35-42 | one entry per requester, in order, each carrying the room's id and name and the requester's id and username |
| JoinRequests.AllFetched | src/pages/JoinRequests.jsx:34 | no contract; every `await api.get("/rooms/:id")` of an owned room succeeded. Used by `CollectPending` and `FetchRequests` |
| JoinRequests.FlattenLength | src/pages/JoinRequests.jsx:33-43 | the list has one entry per request: its length is the sum of the owned rooms' request counts |
| JoinRequests.FlattenAppend | src/pages/JoinRequests.jsx:33-43 | rooms contribute in their order: the list for two runs of rooms is the first's followed by the second's |
| JoinRequests.FlattenSingle | src/pages/JoinRequests.jsx:35-42 | a single room contributes its requesters' entries in request order |
| JoinRequests.FlattenIndex | src/pages/JoinRequests.jsx:33-43 | the j-th requester of the i-th owned room is at position (requests of earlier rooms) + j: ordered by room, then by request |
| JoinRequests.FlattenSound | src/pages/JoinRequests.jsx:36-41 | every entry pairs an owned room with one of its requesters |
| JoinRequests.FlattenComplete | src/pages/JoinRequests.jsx:36-41 | every pair of an owned room and one of its requesters is in the list |
| JoinRequests.FlattenMembers | src/pages/JoinRequests.jsx:33-43 | an entry is listed exactly when it pairs an owned room with one of its requesters |
| JoinRequests.OnlyOwnedRoomsContribute | src/pages/JoinRequests.jsx:28-30 | every entry names a fetched room whose owner is the user |
| JoinRequests.CollectPending | src/pages/JoinRequests.jsx:32-43 | the nested loops fail exactly when some owned room's details cannot be fetched, and otherwise build the flattened list |
| JoinRequests.Page.constructor | src/pages/JoinRequests.jsx:7-8 | an empty list, loading |
| JoinRequests.Page.FetchRequests | src/pages/JoinRequests.jsx:25-52 | on success the stored list is the flattened list of the owned rooms; any failure keeps the stored list; loading ends either way |
| JoinRequests.Page.HandleAction | src/pages/JoinRequests.jsx:59-72 | the action's URL is posted; after a successful post the list is fetched again, and a failed post changes nothing else |
| JoinRequests.ActionUrl | src/pages/JoinRequests.jsx:61 | no contract; the POST path. Specified by `ActionUrlRoundTrip` |
| JoinRequests.ParseActionUrl | src/pages/JoinRequests.jsx:61 | no contract; reads a path back as room, action and requester. Specified by `ActionUrlRoundTrip` |
| JoinRequests.IndexOf | src/pages/JoinRequests.jsx:61 | the first index of the character, or the length when it is absent |
| JoinRequests.SplitAtSlash | src/pages/JoinRequests.jsx:61 | a split gives back text before and after a slash that recompose the input |
| JoinRequests.IndexOfSlash | src/pages/JoinRequests.jsx:61 | in `s + "/" + t` with no slash in `s`, the first slash follows `s` |
| JoinRequests.SplitJoined | src/pages/JoinRequests.jsx:61 | splitting `s + "/" + t` gives `s` and `t` back when `s` has no slash |
| JoinRequests.ActionUrlRoundTrip | src/pages/JoinRequests.jsx:61 | `/rooms/{roomId}/{action}/{userId}` reads back as that room, action and requester for any room id without a slash |
| App.RoomParam | src/App.jsx:44 | `/room/:id` matches exactly one non-empty segment after "/room/", and gives it back |
| App.Protected | src/App.jsx:35-58 | no contract; the page each guarded location shows. Specified by `ProtectedRoutes` |
| App.Route | src/App.jsx:30-64 | no contract; the route table. Specified by `PublicRoutes`, `ProtectedRoutes`, `AdminRoute`, `GuardsHold` and `RedirectsSettle` |
| App.FixedPathsAreNotRooms | src/App.jsx:30-64 | no fixed location of the table has the "/room/" shape |
| App.Frame | src/App.jsx:21-28 | the navigation bar is always there; the bottom padding for the player is there exactly for a signed-in user |
| App.NavbarForEveryone | src/App.jsx:21 | the navigation bar does not depend on the user |
| App.PublicRoutes | src/App.jsx:31-32 | "/login" and "/register" render their forms whoever is signed in |
| App.ProtectedRoutes | src/App.jsx:35-58 | each guarded location renders its page exactly when a user is signed in, and otherwise redirects to "/login" |
| App.AdminRoute | src/App.jsx:59-64 | "/admin" renders the admin page exactly for an admin; everyone else, signed in or not, is redirected to "/" |
| App.GuardsHold | src/App.jsx:30-64 | at any location, without a user only the two forms render, and the admin page renders only for an admin |
| App.RedirectsSettle | src/App.jsx:30-64 | every redirect reaches a rendered page within two hops |
| App.EnterOpensRoom | src/App.jsx:43-46 | a room card's Enter link routes a signed-in user to that room's page |
| Subscriptions.On | src/pages/RoomDashboard.jsx:72-73 | `socket.on` appends the listener after all existing ones |
| Subscriptions.OffEvent | src/components/AudioPlayer.jsx:50 | `socket.off(event)` removes every listener of that event and keeps all the others |
| Subscriptions.OffHandler | src/pages/RoomDashboard.jsx:75-78 | `socket.off(event, handler)` removes exactly that listener |
| Subscriptions.Receivers | src/pages/RoomDashboard.jsx:72-73 | an event reaches exactly the handlers registered for it |
| Subscriptions.Mounted | src/pages/RoomDashboard.jsx:72-73 | after mount with a user, "sync-state" reaches the page's handler and the player's |
| Subscriptions.PlayerResubscribeAsWritten | src/components/AudioPlayer.jsx:50 | no contract; the player's effect re-running as written. Specified by `ResubscribeAsWrittenDropsPage` |
| Subscriptions.PlayerResubscribe | src/components/AudioPlayer.jsx:50 | no contract; the re-run with the handler named. Specified by `ResubscribeKeepsOthers` |
| Subscriptions.ResubscribeAsWrittenDropsPage | src/components/AudioPlayer.jsx:50 | as written, after one role change the player is the only "sync-state" handler |
| Subscriptions.ResubscribeKeepsOthers | src/components/AudioPlayer.jsx:50 | with the cleanup naming its handler, every other handler of every event survives a role change |
| Subscriptions.NoReceivers | src/components/AudioPlayer.jsx:50 | with no listener of an event, it reaches no handler |
| Subscriptions.ReceiversAppend | src/pages/RoomDashboard.jsx:72-73 | the handlers of a concatenated table are the two tables' handlers in order |
| Subscriptions.BothHandlersAreTheStep | src/pages/RoomDashboard.jsx:66-70 | for a device with a user, delivering "sync-state" to the page's and the player's handlers, in either order, is the handlers' dispatch `Room.Dispatch` |
| Subscriptions.Apply | src/pages/RoomDashboard.jsx:66-70 | no contract; one handler's reaction to "sync-state": the page adopts the song, the player runs `SyncSpec`, the others ignore it. Specified through `BothHandlersAreTheStep` |
| Subscriptions.DeliverSync | src/pages/RoomDashboard.jsx:72-73 | no contract; socket.io calling the "sync-state" handlers in order. Specified through `BothHandlersAreTheStep` and the two role-change lemmas |
| Subscriptions.StaleSongAfterRoleChange | src/components/AudioPlayer.jsx:50 | as written, after a role change a listener holding a current song plays a newly synced song but keeps rendering the old one |
| Subscriptions.SongFollowsAfterRoleChange | src/components/AudioPlayer.jsx:50 | with the corrected cleanup, a newly synced song is rendered and played on a device with a user |

## Left out

- Rendering, JSX markup, icons, modals, toasts and their timers. `Player`
  keeps the state its markup reads from (`SongToRender`, progress), but
  nothing is drawn.
- Room.Step: it models the corrected "sync-state" dispatch, where the page's
  handler is reached whenever there is a user. The dispatch as written, in which one role
  change drops the page's handler, is modelled in `Subscriptions` (see
  Findings).
- REST calls. Their responses are parameters: `None` when the call throws,
  and for room details a map from room id to requesters, where a missing id
  is a failed fetch.
- Socket connection, `connect` / `connect_error` logging and `disconnect`.
  A socket is a `hasSocket` flag, and a send is an append to `outbox`.
- The server that relays messages. Its translation of "request-play" into
  "incoming-play-request", and of "respond-play-request" into
  "request-play-response", is not modelled. Inbound and outbound messages
  are distinct kinds.
- Promises. `Player.Play` runs as if `audio.play()` resolved. A rejected
  play promise, which would skip the rest of `play`, and any interleaving at
  that `await` are not modelled.
- Floating point. Positions and progress are exact `real`s. The NaN of an
  unknown duration is `None`, and `seek` requires a known duration where it
  multiplies by it.
- The audio decoder. The element is a record. It stays empty until a
  "sync-state" (on a listener), or a play or an accepted request (on the
  host), gives it a source. Decoding is reduced to two browser inputs:
  - the file's duration arrives in one step;
  - the position jumps forward to a given time.
  Buffering, the end of a file, errors, and the browser resetting the
  position on a load are not modelled. Nor is the browser turning `src`
  into an absolute URL before comparing it with `song.url`.
- The song list's own re-render. The `isPlaying` badge reads the page's
  current song.
- App.Route: React Router's trailing-slash and case-insensitive matching are
  not modelled. Locations match exactly.
- RoomDashboard.Page: the effect's dependency on `user.id`, rather than
  `user._id`, is not modelled. The model registers the page's handlers once
  per mount.
- SongCard's `deleteSong`, RoomCard's `requestJoin` and the pages with forms
  or display only. Each is a confirmation or a form in front of an API call.

## Findings

| source | as written | input that shows it | evidently intended | confidence | as-written member | corrected member |
|---|---|---|---|---|---|---|
| src/components/AudioPlayer.jsx:50 | The player's cleanup `socket.off("sync-state")` passes no handler. It therefore removes every "sync-state" listener, including the page's `handleSyncState` (src/pages/RoomDashboard.jsx:66-73), which the page never registers again. | A device whose role changes once, for example by being made host and later demoted, holds current song A. It then receives "sync-state" with song B. Its element plays B, but the title and the "Playing" badge stay on A. | Remove only the player's own handler, as the page's cleanup does. | not executed; high that the page's handler is removed, medium that a demotion happens in practice | Subscriptions.StaleSongAfterRoleChange | Subscriptions.SongFollowsAfterRoleChange |
