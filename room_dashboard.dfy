/**
 * The room page of src/pages/RoomDashboard.jsx: it owns `currentSong`
 * (passed down to the song cards and the player), the fetched room and song
 * list, and two socket handlers that adopt a song into `currentSong`.
 */
module RoomDashboard {
  import opened Wire

  const RoomNotFound: string := "Room not found"

  /** The "request-play-response" rule: the response's song becomes current
      only when it answers this user and was accepted. */
  function AdoptResponse(current: Option<Song>, resp: PlayResponse, user: User): (r: Option<Song>)
    ensures resp.userId == user.id && resp.accepted ==> r == Some(resp.song)
    ensures !(resp.userId == user.id && resp.accepted) ==> r == current
  {
    if resp.userId == user.id then (if resp.accepted then Some(resp.song) else current) else current
  }

  /** The "sync-state" rule: a payload with a song makes it current; a
      payload without one leaves the current song as it was. */
  function AdoptSync(current: Option<Song>, state: SyncState): (r: Option<Song>)
    ensures state.song.Some? ==> r == state.song
    ensures state.song.None? ==> r == current
  {
    if state.song.Some? then state.song else current
  }

  /** Delivering the same response or state twice is the same as once. */
  lemma AdoptIdempotent(current: Option<Song>, resp: PlayResponse, user: User, state: SyncState)
    ensures AdoptResponse(AdoptResponse(current, resp, user), resp, user) == AdoptResponse(current, resp, user)
    ensures AdoptSync(AdoptSync(current, state), state) == AdoptSync(current, state)
  {
  }

  /** `user?.role === "admin" || room?.owner?._id === user?._id`. Both sides
      of the comparison may be `undefined`, and then they are equal. */
  function IsOwner(user: Option<User>, room: Option<Room>): (r: bool)
    ensures user.Some? ==>
      (r <==> user.value.role == AdminRole || (room.Some? && room.value.owner == Some(user.value.id)))
    ensures user.None? ==> (r <==> room.None? || room.value.owner.None?)
  {
    var ownerId := if room.Some? then room.value.owner else None;
    IsAdmin(user) || ownerId == UserId(user)
  }

  class Page {
    var songs: seq<Song>
    var room: Option<Room>
    var loading: bool
    var error: string
    var currentSong: Option<Song>

    /** The initial state of the page's `useState` hooks. */
    constructor ()
      ensures songs == [] && room == None && loading && error == "" && currentSong == None
    {
      songs := [];
      room := None;
      loading := true;
      error := "";
      currentSong := None;
    }

    /** `fetchRoom`: the response of `GET /rooms/:id`, `None` when it throws. */
    method FetchRoom(response: Option<Room>)
      modifies this`room, this`error
      ensures response.Some? ==> room == response && error == old(error)
      ensures response.None? ==> room == None && error == RoomNotFound
    {
      if response.Some? {
        room := response;
      } else {
        error := RoomNotFound;
        room := None;
      }
    }

    /** `fetchSongs`: the response of `GET /songs/room/:id`, `None` when it
        throws; a failure leaves the list empty. */
    method FetchSongs(response: Option<seq<Song>>)
      modifies this`songs
      ensures response.Some? ==> songs == response.value
      ensures response.None? ==> songs == []
    {
      if response.Some? {
        songs := response.value;
      } else {
        songs := [];
      }
    }

    /** `loadData`: the room, then the songs (fetched even when the room
        failed), then the loading flag is cleared. */
    method LoadData(roomResponse: Option<Room>, songsResponse: Option<seq<Song>>)
      modifies this`room, this`error, this`songs, this`loading
      ensures !loading
      ensures room == roomResponse
      ensures error == (if roomResponse.None? then RoomNotFound else old(error))
      ensures songs == (if songsResponse.Some? then songsResponse.value else [])
    {
      loading := true;
      FetchRoom(roomResponse);
      FetchSongs(songsResponse);
      loading := false;
    }

    /** `setCurrentSong`, as handed to the song cards and the player. */
    method SetCurrentSong(song: Song)
      modifies this`currentSong
      ensures currentSong == Some(song)
    {
      currentSong := Some(song);
    }

    /** The "request-play-response" handler (registered only with a socket
        and a user). */
    method OnRequestPlayResponse(resp: PlayResponse, user: User)
      modifies this`currentSong
      ensures currentSong == AdoptResponse(old(currentSong), resp, user)
    {
      if resp.userId == user.id {
        if resp.accepted {
          currentSong := Some(resp.song);
        }
      }
    }

    /** The page's own "sync-state" handler. */
    method OnSyncState(state: SyncState)
      modifies this`currentSong
      ensures currentSong == AdoptSync(old(currentSong), state)
    {
      if state.song.Some? {
        currentSong := state.song;
      }
    }
  }
}
