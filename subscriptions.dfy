/**
 * The socket's listener table for one room page. The page's effect
 * (src/pages/RoomDashboard.jsx:55-79) and the player's effects
 * (src/components/AudioPlayer.jsx:29-61) add handlers with `socket.on` and
 * remove them in their cleanups with `socket.off`. `socket.off(event)`
 * without a handler removes EVERY handler of that event, and the player's
 * "sync-state" cleanup is written that way; so when the player's effect
 * re-runs on a role change it also drops the page's "sync-state" handler,
 * which the page never adds back. `PlayerResubscribeAsWritten` is that
 * code; `PlayerResubscribe` removes only the player's own handler, and
 * delivering a "sync-state" to its listeners is then the handlers'
 * dispatch `Room.Dispatch` the rest of the model uses.
 */
module Subscriptions {
  import opened Wire
  import opened RoomDashboard
  import opened AudioPlayer
  import Room

  datatype Handler = PageRequestResponse | PageSyncState | PlayerSyncState | PlayerIncomingRequest

  /** The events the page and the player subscribe to: "sync-state",
      "request-play-response" and "incoming-play-request". */
  datatype Event = SyncStateEvent | ResponseEvent | IncomingEvent

  datatype Listener = Listener(event: Event, handler: Handler)

  /** `socket.on(event, handler)`: appended, so handlers run in order of
      registration. */
  function On(ls: seq<Listener>, event: Event, h: Handler): (r: seq<Listener>)
    ensures |r| == |ls| + 1 && r[..|ls|] == ls && r[|ls|] == Listener(event, h)
  {
    ls + [Listener(event, h)]
  }

  /** `socket.off(event)`: every handler of the event goes. */
  function OffEvent(ls: seq<Listener>, event: Event): (r: seq<Listener>)
    ensures forall l :: l in r <==> l in ls && l.event != event
  {
    if ls == [] then []
    else (if ls[0].event == event then [] else [ls[0]]) + OffEvent(ls[1..], event)
  }

  /** `socket.off(event, handler)`: that handler goes, the others stay. */
  function OffHandler(ls: seq<Listener>, event: Event, h: Handler): (r: seq<Listener>)
    ensures forall l :: l in r <==> l in ls && l != Listener(event, h)
  {
    if ls == [] then []
    else (if ls[0] == Listener(event, h) then [] else [ls[0]]) + OffHandler(ls[1..], event, h)
  }

  /** The handlers an emitted event reaches, in order. */
  function Receivers(ls: seq<Listener>, event: Event): (r: seq<Handler>)
    ensures forall h :: h in r <==> Listener(event, h) in ls
  {
    if ls == [] then []
    else (if ls[0].event == event then [ls[0].handler] else []) + Receivers(ls[1..], event)
  }

  /** The page's effect and the player's "sync-state" effect after mount
      (the page's effect subscribes only with a user). */
  function Mounted(): (r: seq<Listener>)
    ensures Receivers(r, SyncStateEvent) == [PageSyncState, PlayerSyncState]
  {
    [Listener(ResponseEvent, PageRequestResponse),
     Listener(SyncStateEvent, PageSyncState),
     Listener(SyncStateEvent, PlayerSyncState)]
  }

  /** The player's "sync-state" effect re-running on an `isHost` change,
      as written: the cleanup `socket.off("sync-state")`, then `socket.on`. */
  function PlayerResubscribeAsWritten(ls: seq<Listener>): seq<Listener>
  {
    On(OffEvent(ls, SyncStateEvent), SyncStateEvent, PlayerSyncState)
  }

  /** The same re-run with the cleanup naming its own handler. */
  function PlayerResubscribe(ls: seq<Listener>): seq<Listener>
  {
    On(OffHandler(ls, SyncStateEvent, PlayerSyncState), SyncStateEvent, PlayerSyncState)
  }

  /** As written, one role change leaves the player as the only
      "sync-state" handler: the page's is gone, whatever was registered. */
  lemma {:induction false} ResubscribeAsWrittenDropsPage(ls: seq<Listener>)
    ensures Receivers(PlayerResubscribeAsWritten(ls), SyncStateEvent) == [PlayerSyncState]
  {
    var kept := OffEvent(ls, SyncStateEvent);
    NoReceivers(kept, SyncStateEvent);
    ReceiversAppend(kept, [Listener(SyncStateEvent, PlayerSyncState)], SyncStateEvent);
  }

  /** With the handler named, a role change keeps every other handler of
      every event and leaves the player's handler registered. */
  lemma ResubscribeKeepsOthers(ls: seq<Listener>, event: Event, h: Handler)
    ensures h in Receivers(PlayerResubscribe(ls), event) <==>
      (h in Receivers(ls, event) && Listener(event, h) != Listener(SyncStateEvent, PlayerSyncState)) ||
      Listener(event, h) == Listener(SyncStateEvent, PlayerSyncState)
  {
  }

  /** No listener of the event: it reaches no handler. */
  lemma {:induction false} NoReceivers(ls: seq<Listener>, event: Event)
    requires forall l :: l in ls ==> l.event != event
    ensures Receivers(ls, event) == []
  {
    if ls != [] {
      assert ls[0] in ls;
      NoReceivers(ls[1..], event);
    }
  }

  lemma {:induction false} ReceiversAppend(a: seq<Listener>, b: seq<Listener>, event: Event)
    ensures Receivers(a + b, event) == Receivers(a, event) + Receivers(b, event)
  {
    if a == [] {
      assert a + b == b;
    } else {
      assert (a + b)[1..] == a[1..] + b;
      ReceiversAppend(a[1..], b, event);
    }
  }

  /** One handler's reaction to a "sync-state": the page adopts the song,
      the player follows it; the others do not listen to it. */
  function Apply(d: Device, state: SyncState, h: Handler): Device
  {
    match h
    case PageSyncState => d.(currentSong := AdoptSync(d.currentSong, state))
    case PlayerSyncState => SyncSpec(d, state)
    case _ => d
  }

  /** A "sync-state" delivered to the handlers in order. */
  function DeliverSync(d: Device, state: SyncState, hs: seq<Handler>): Device
    decreases |hs|
  {
    if hs == [] then d else DeliverSync(Apply(d, state, hs[0]), state, hs[1..])
  }

  /** With both handlers registered, delivery is the handlers' dispatch of
      the device model, in either order of registration. */
  lemma BothHandlersAreTheStep(d: Device, state: SyncState)
    requires d.hasSocket && d.user.Some?
    ensures DeliverSync(d, state, [PageSyncState, PlayerSyncState]) == Room.Dispatch(d, Room.SyncEvent(state))
    ensures DeliverSync(d, state, [PlayerSyncState, PageSyncState]) == Room.Dispatch(d, Room.SyncEvent(state))
  {
    var adopted := d.(currentSong := AdoptSync(d.currentSong, state));
    assert SyncSpec(d, state).(currentSong := AdoptSync(d.currentSong, state)) == SyncSpec(adopted, state);
  }

  /** As written, a listener that has been through a role change and holds
      a current song keeps showing it: a "sync-state" with another song
      moves its element to that song, but `songToRender` (so the title and
      the "Playing" badge) stays on the old one. */
  lemma StaleSongAfterRoleChange(d: Device, state: SyncState)
    requires d.hasSocket && !d.isHost && d.audio.Some? && d.currentSong.Some?
    requires state.song.Some? && state.song != d.currentSong
    ensures var r := DeliverSync(d, state, Receivers(PlayerResubscribeAsWritten(Mounted()), SyncStateEvent));
      && r.audio.value.src == state.song.value.url
      && SongToRender(r) == d.currentSong
      && SongToRender(r) != state.song
  {
    ResubscribeAsWrittenDropsPage(Mounted());
    assert DeliverSync(d, state, [PlayerSyncState]) == SyncSpec(d, state);
  }

  /** With the corrected cleanup the page adopts the new song: element and
      `songToRender` agree on it. */
  lemma SongFollowsAfterRoleChange(d: Device, state: SyncState)
    requires d.hasSocket && d.user.Some? && !d.isHost && d.audio.Some?
    requires state.song.Some?
    ensures var r := DeliverSync(d, state, Receivers(PlayerResubscribe(Mounted()), SyncStateEvent));
      && r.audio.value.src == state.song.value.url
      && SongToRender(r) == state.song
  {
    var corrected := PlayerResubscribe(Mounted());
    assert corrected == Mounted();
    BothHandlersAreTheStep(d, state);
  }
}
