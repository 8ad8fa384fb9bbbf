/**
 * The song card of src/components/SongCard.jsx: the play button routes by
 * role (the host plays, a listener asks the host), and two expressions
 * decide the "Playing" badge and the Remove button.
 */
module SongCard {
  import opened Wire
  import opened SocketContext
  import opened RoomDashboard

  /** `canDelete`: `user?.role === "admin" || song.addedBy?._id === user?._id`;
      with no user and no `addedBy`, both sides are `undefined` and equal. */
  function CanDelete(user: Option<User>, song: Song): (r: bool)
    ensures user.Some? ==> (r <==> user.value.role == AdminRole || song.addedBy == Some(user.value.id))
    ensures user.None? ==> (r <==> song.addedBy.None?)
  {
    IsAdmin(user) || song.addedBy == UserId(user)
  }

  /** `isPlaying`: `currentSong?._id === song._id`. */
  function ShowsPlayingBadge(current: Option<Song>, song: Song): (r: bool)
    ensures r <==> current.Some? && current.value.id == song.id
  {
    (if current.Some? then Some(current.value.id) else None) == Some(song.id)
  }

  /** In a playlist whose ids are distinct, at most one card shows the badge. */
  lemma OneBadgePerPlaylist(current: Option<Song>, songs: seq<Song>, i: nat, j: nat)
    requires forall x, y :: 0 <= x < y < |songs| ==> songs[x].id != songs[y].id
    requires i < |songs| && j < |songs|
    requires ShowsPlayingBadge(current, songs[i]) && ShowsPlayingBadge(current, songs[j])
    ensures i == j
  {
  }

  /** What a press of the card's play button does: the song it makes
      current, if any, and the messages it sends. */
  datatype PressOutcome = PressOutcome(newCurrent: Option<Song>, emitted: seq<Msg>)

  /** `playSong`: nothing without a room id, a socket or a user; the host
      makes the song current and announces it from 0; a listener leaves the
      current song alone and sends one request naming itself. Every press
      is sent: there is no pending-request suppression. */
  function Press(roomId: Id, hasSocket: bool, user: Option<User>, isHost: bool, song: Song): (r: PressOutcome)
    ensures roomId == "" || !hasSocket || user.None? ==> r == PressOutcome(None, [])
    ensures roomId != "" && hasSocket && user.Some? && isHost ==>
      r == PressOutcome(Some(song), [Msg.PlaySong(roomId, song, 0.0)])
    ensures roomId != "" && hasSocket && user.Some? && !isHost ==>
      r == PressOutcome(None, [RequestPlay(roomId, song, Requester(user.value.id, user.value.username))])
    ensures |r.emitted| <= 1
  {
    if roomId == "" || !hasSocket || user.None? then PressOutcome(None, [])
    else if isHost then PressOutcome(Some(song), [Msg.PlaySong(roomId, song, 0.0)])
    else PressOutcome(None, [RequestPlay(roomId, song, Requester(user.value.id, user.value.username))])
  }

  /** The click handler: `roomId` is "" when the prop is missing. */
  method PlaySong(song: Song, roomId: Id, session: SocketProvider, user: Option<User>, page: Page)
    requires session.Valid()
    modifies session`outbox, page`currentSong
    ensures session.Valid()
    ensures var o := Press(roomId, old(session.hasSocket), user, old(session.isHost), song);
      && session.outbox == old(session.outbox) + o.emitted
      && page.currentSong == (if o.newCurrent.Some? then o.newCurrent else old(page.currentSong))
  {
    if roomId == "" || !session.hasSocket || user.None? {
      return;
    }
    if session.isHost {
      page.SetCurrentSong(song);
      session.Emit(Msg.PlaySong(roomId, song, 0.0));
    } else {
      session.Emit(RequestPlay(roomId, song, Requester(user.value.id, user.value.username)));
    }
  }
}
