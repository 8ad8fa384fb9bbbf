/**
 * Shared value types of the room client: the records exchanged with the
 * server (songs, users, rooms) and the named socket messages.
 *
 * A JavaScript field that may be `undefined` or `null` becomes an `Option`;
 * ids are strings, as they arrive in JSON.
 */
module Wire {

  datatype Option<+T> = None | Some(value: T)

  type Id = string

  const AdminRole: string := "admin"

  /** `user` from the authentication context: `_id`, `username`, `role`. */
  datatype User = User(id: Id, username: string, role: string)

  /** `{ _id, username }` as a play request carries it in `requestedBy`. */
  datatype Requester = Requester(id: Id, username: string)

  /** A song record; `addedBy` is the id in `song.addedBy?._id`, when present. */
  datatype Song = Song(id: Id, title: string, artist: string, url: string, addedBy: Option<Id>)

  /** A member of `room.members`: a populated object with `_id`, or a bare id. */
  datatype Member = Populated(id: Id) | Bare(ref: Id)

  /** A room record: `owner` is `room.owner?._id`, `members` may be absent. */
  datatype Room = Room(id: Id, name: string, owner: Option<Id>, members: Option<seq<Member>>)

  /** Outbound socket messages, one constructor per event name. */
  datatype Msg =
    | JoinRoom(roomId: Id, userId: Id)                               // "join-room"
    | PlaySong(roomId: Id, song: Song, currentTime: real)            // "play-song"
    | PauseSong(roomId: Id, currentTime: real)                       // "pause-song"
    | SeekSong(roomId: Id, currentTime: real)                        // "seek-song"
    | RequestPlay(roomId: Id, song: Song, requestedBy: Requester)    // "request-play"
    | RespondPlayRequest(roomId: Id, song: Song, requestedBy: Requester, accepted: bool) // "respond-play-request"

  /** Inbound "sync-state" payload; `currentTime` may be absent. */
  datatype SyncState = SyncState(song: Option<Song>, currentTime: Option<real>, isPlaying: bool)

  /** Inbound "incoming-play-request" payload, also the host's request slot. */
  datatype PlayRequest = PlayRequest(song: Song, requestedBy: Requester)

  /** Inbound "request-play-response" payload. */
  datatype PlayResponse = PlayResponse(accepted: bool, song: Song, userId: Id)

  /** `user?._id`: the id of the logged-in user, absent when nobody is logged in. */
  function UserId(user: Option<User>): (r: Option<Id>)
    ensures r.Some? <==> user.Some?
    ensures user.Some? ==> r.value == user.value.id
  {
    match user
    case None => None
    case Some(u) => Some(u.id)
  }

  /** `user?.role === "admin"`. */
  predicate IsAdmin(user: Option<User>)
  {
    user.Some? && user.value.role == AdminRole
  }

  /** `t || 0` for an optional position: an absent position reads as 0. */
  function OrZero(t: Option<real>): (r: real)
    ensures t.None? ==> r == 0.0
    ensures t.Some? ==> r == t.value
  {
    match t
    case None => 0.0
    case Some(x) => x
  }
}
