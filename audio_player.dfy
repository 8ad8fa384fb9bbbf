/**
 * The playback engine of src/components/AudioPlayer.jsx.
 *
 * The `<audio>` element is an abstract object (`AudioElement`) with a
 * source, a position, a duration and a playing flag, plus a count of the
 * loads it was told to start. Every assignment to `src` starts a load,
 * which leaves the duration unknown (NaN) until the browser has read the
 * file's metadata; the browser's own part, reading that metadata and
 * moving the position while the element plays, is two more operations of
 * the element.
 *
 * Each handler of the component becomes a method of `Player`, proved
 * against a specification function on `Device`, the value view of every
 * piece of state a handler reads or writes: the role and outbound log of
 * the socket provider, the room page's `currentSong`, the component's own
 * `useState` fields and the audio element.
 */
module AudioPlayer {
  import opened Wire
  import opened SocketContext
  import opened RoomDashboard

  /** The value of the audio element; `duration` is `None` while it is NaN. */
  datatype Audio = Audio(src: string, currentTime: real, duration: Option<real>, playing: bool, loads: nat)

  datatype Device = Device(
    roomId: Id,
    user: Option<User>,
    hasSocket: bool,
    isHost: bool,
    outbox: seq<Msg>,
    currentSong: Option<Song>,
    syncedSong: Option<Song>,
    isPlaying: bool,
    progress: real,
    incoming: Option<PlayRequest>,
    audio: Option<Audio>)

  /** `duration || 1`: NaN and 0 are both falsy and read as 1. */
  function DurationOr1(duration: Option<real>): (r: real)
    ensures r != 0.0
    ensures duration.Some? && duration.value != 0.0 ==> r == duration.value
    ensures duration.None? || duration.value == 0.0 ==> r == 1.0
  {
    match duration
    case None => 1.0
    case Some(x) => if x == 0.0 then 1.0 else x
  }

  /** Assigning `src`: a load of `url` starts, and until its metadata is
      read the duration is NaN. */
  function Loaded(a: Audio, url: string): (r: Audio)
    ensures r.src == url && r.duration.None? && r.loads == a.loads + 1
    ensures r.currentTime == a.currentTime && r.playing == a.playing
  {
    a.(src := url, duration := None, loads := a.loads + 1)
  }

  /** The progress formula `time / (duration || 1) * 100`, unclamped. */
  function Progress(time: real, duration: Option<real>): real
  {
    time / DurationOr1(duration) * 100.0
  }

  /** `songToRender = currentSong || syncedSong`. */
  function SongToRender(d: Device): (r: Option<Song>)
    ensures d.currentSong.Some? ==> r == d.currentSong
    ensures d.currentSong.None? ==> r == d.syncedSong
  {
    if d.currentSong.Some? then d.currentSong else d.syncedSong
  }

  /** The guard shared by `play`, `pause` and `seek`: host with an element. */
  predicate HostWithAudio(d: Device)
  {
    d.isHost && d.audio.Some?
  }

  /** The element as `<audio ref={audioRef} onTimeUpdate={...} />` mounts
      it: no source, at 0, duration NaN, paused, nothing loaded yet. */
  const EmptyAudio := Audio("", 0.0, None, false, 0)

  /** The component renders nothing while there is no song to render, and
      renders the `<audio>` element (without a `src`) once there is one. */
  predicate ElementMounted(d: Device)
  {
    d.audio.Some? <==> SongToRender(d).Some?
  }

  /** The render that follows every handler: `audioRef.current` is null
      until a song is to be rendered, and the element it then mounts is
      empty. A mounted element stays: neither song is ever cleared. */
  function RenderSpec(d: Device): (r: Device)
    ensures ElementMounted(r) || (d.audio.Some? && SongToRender(d).None?)
    ensures d.audio.Some? ==> r == d
    ensures d.audio.None? ==> r.audio.None? || r.audio == Some(EmptyAudio)
    ensures r.(audio := d.audio) == d
  {
    if d.audio.None? && SongToRender(d).Some? then d.(audio := Some(EmptyAudio)) else d
  }

  /** The component's state when it mounts: the `useState` initial values
      (not playing, progress 0, no synced song, no request), and the
      element present only if the page already has a current song. */
  function InitialSpec(roomId: Id, user: Option<User>, hasSocket: bool, isHost: bool,
                       outbox: seq<Msg>, currentSong: Option<Song>): (r: Device)
    ensures ElementMounted(r)
    ensures r.audio.Some? <==> currentSong.Some?
    ensures r.audio.Some? ==> r.audio.value == EmptyAudio
    ensures r.roomId == roomId && r.user == user && r.hasSocket == hasSocket && r.isHost == isHost
    ensures r.outbox == outbox && r.currentSong == currentSong
    ensures !r.isPlaying && r.progress == 0.0 && r.syncedSong.None? && r.incoming.None?
  {
    RenderSpec(Device(roomId, user, hasSocket, isHost, outbox, currentSong, None, false, 0.0, None, None))
  }

  /** `play`: on the host with a song and an element, load the song only if
      the element holds another source (rewinding it), start it, and
      announce it with the element's position. Anything else: no change. */
  function PlaySpec(d: Device): (r: Device)
    ensures !HostWithAudio(d) || SongToRender(d).None? ==> r == d
    ensures HostWithAudio(d) && SongToRender(d).Some? ==>
      var song, a := SongToRender(d).value, d.audio.value;
      && r.audio.Some?
      && r.audio.value.src == song.url
      && r.audio.value.playing
      && (a.src == song.url ==> r.audio == Some(a.(playing := true)))
      && (a.src != song.url ==>
            && r.audio.value.currentTime == 0.0 && r.audio.value.loads == a.loads + 1
            && r.audio.value.duration.None?)
      && r.isPlaying
      && r.outbox == d.outbox + [PlaySong(d.roomId, song, r.audio.value.currentTime)]
      && r.(audio := d.audio, isPlaying := d.isPlaying, outbox := d.outbox) == d
  {
    if !HostWithAudio(d) || SongToRender(d).None? then d
    else
      var song, a := SongToRender(d).value, d.audio.value;
      var loaded := if a.src != song.url then Loaded(a, song.url).(currentTime := 0.0) else a;
      var started := loaded.(playing := true);
      d.(audio := Some(started), isPlaying := true,
         outbox := d.outbox + [PlaySong(d.roomId, song, started.currentTime)])
  }

  /** `pause`: on the host with an element, pause it and announce its
      position; no song is needed. Anything else: no change. */
  function PauseSpec(d: Device): (r: Device)
    ensures !HostWithAudio(d) ==> r == d
    ensures HostWithAudio(d) ==>
      && r.audio == Some(d.audio.value.(playing := false))
      && !r.isPlaying
      && r.outbox == d.outbox + [PauseSong(d.roomId, d.audio.value.currentTime)]
      && r.(audio := d.audio, isPlaying := d.isPlaying, outbox := d.outbox) == d
  {
    if !HostWithAudio(d) then d
    else
      var a := d.audio.value;
      d.(audio := Some(a.(playing := false)), isPlaying := false,
         outbox := d.outbox + [PauseSong(d.roomId, a.currentTime)])
  }

  /** `seek` multiplies by the duration, which must be known when it runs. */
  predicate SeekAllowed(d: Device)
  {
    HostWithAudio(d) ==> d.audio.value.duration.Some?
  }

  /** `value / 100 * duration`: the position a slider value stands for. */
  function SeekTime(value: real, duration: real): real
  {
    value / 100.0 * duration
  }

  /** `seek(value)`: on the host with an element, move to `value`% of the
      duration (no clamping), set progress to `value` and announce the new
      position. Anything else: no change. */
  function SeekSpec(d: Device, value: real): (r: Device)
    requires SeekAllowed(d)
    ensures !HostWithAudio(d) ==> r == d
    ensures HostWithAudio(d) ==>
      var time := SeekTime(value, d.audio.value.duration.value);
      && r.audio == Some(d.audio.value.(currentTime := time))
      && r.progress == value
      && r.outbox == d.outbox + [SeekSong(d.roomId, time)]
      && r.(audio := d.audio, progress := d.progress, outbox := d.outbox) == d
  {
    if !HostWithAudio(d) then d
    else
      var a := d.audio.value;
      var time := SeekTime(value, a.duration.value);
      d.(audio := Some(a.(currentTime := time)), progress := value,
         outbox := d.outbox + [SeekSong(d.roomId, time)])
  }

  /** `handleTimeUpdate`: progress follows the element's position. */
  function TimeUpdateSpec(d: Device): (r: Device)
    ensures d.audio.None? ==> r == d
    ensures d.audio.Some? ==>
      r == d.(progress := Progress(d.audio.value.currentTime, d.audio.value.duration))
  {
    match d.audio
    case None => d
    case Some(a) => d.(progress := Progress(a.currentTime, a.duration))
  }

  /** The component's "sync-state" handler. Without an element or a song:
      no change. A listener adopts the song as `syncedSong`, loads its URL
      only if the element holds another source, moves to the payload's
      position (0 when absent) and plays or pauses as told. Host or not,
      `isPlaying` and progress follow the payload, progress dividing by the
      duration the element has after that (unknown right after a load); the
      host's element is left alone. Nothing is emitted. */
  function SyncSpec(d: Device, state: SyncState): (r: Device)
    ensures d.audio.None? || state.song.None? ==> r == d
    ensures d.audio.Some? && state.song.Some? ==>
      var song, a, time := state.song.value, d.audio.value, OrZero(state.currentTime);
      && r.isPlaying == state.isPlaying
      && (d.isHost ==> r.audio == d.audio && r.syncedSong == d.syncedSong)
      && (d.isHost || a.src == song.url ==> r.progress == Progress(time, a.duration))
      && (!d.isHost && a.src != song.url ==> r.progress == time * 100.0)
      && (!d.isHost ==>
            && r.syncedSong == Some(song)
            && r.audio == Some(Audio(song.url, time,
                                     if a.src != song.url then None else a.duration,
                                     state.isPlaying,
                                     if a.src != song.url then a.loads + 1 else a.loads)))
      && r.(audio := d.audio, syncedSong := d.syncedSong, isPlaying := d.isPlaying, progress := d.progress) == d
  {
    if d.audio.None? || state.song.None? then d
    else
      var song, a := state.song.value, d.audio.value;
      var time := OrZero(state.currentTime);
      var followed :=
        if d.isHost then d
        else
          var loaded := if a.src != song.url then Loaded(a, song.url) else a;
          d.(syncedSong := Some(song), audio := Some(loaded.(currentTime := time, playing := state.isPlaying)));
      followed.(isPlaying := state.isPlaying, progress := Progress(time, followed.audio.value.duration))
  }

  /** The "incoming-play-request" handler: the single slot is overwritten
      (the last request wins; there is no queue). */
  function IncomingSpec(d: Device, request: PlayRequest): (r: Device)
    ensures r.incoming == Some(request)
    ensures r.(incoming := d.incoming) == d
  {
    d.(incoming := Some(request))
  }

  /** Accepting rewrites the element's source, so it needs the element. */
  predicate RespondAllowed(d: Device, accepted: bool)
  {
    d.incoming.Some? && accepted ==> d.audio.Some?
  }

  /** `handleRequestResponse(accepted)`: with an empty slot, no change.
      Otherwise the answer is always sent; only an acceptance makes the
      requested song current, reloads it from 0, starts it and announces it
      at 0. The slot is cleared either way. */
  function RespondSpec(d: Device, accepted: bool): (r: Device)
    requires RespondAllowed(d, accepted)
    ensures d.incoming.None? ==> r == d
    ensures d.incoming.Some? ==>
      var req := d.incoming.value;
      var answer := RespondPlayRequest(d.roomId, req.song, req.requestedBy, accepted);
      && r.incoming.None?
      && (!accepted ==> r == d.(incoming := None, outbox := d.outbox + [answer]))
      && (accepted ==>
            && r.currentSong == Some(req.song)
            && r.audio == Some(d.audio.value.(src := req.song.url, currentTime := 0.0, duration := None,
                                              playing := true, loads := d.audio.value.loads + 1))
            && r.isPlaying
            && r.outbox == d.outbox + [answer, PlaySong(d.roomId, req.song, 0.0)]
            && r.(currentSong := d.currentSong, audio := d.audio, isPlaying := d.isPlaying,
                  outbox := d.outbox, incoming := d.incoming) == d)
  {
    if d.incoming.None? then d
    else
      var req := d.incoming.value;
      var answered := d.(outbox := d.outbox + [RespondPlayRequest(d.roomId, req.song, req.requestedBy, accepted)]);
      var played :=
        if accepted then
          var a := d.audio.value;
          answered.(currentSong := Some(req.song),
                    audio := Some(Loaded(a, req.song.url).(currentTime := 0.0, playing := true)),
                    isPlaying := true,
                    outbox := answered.outbox + [PlaySong(d.roomId, req.song, 0.0)])
        else answered;
      played.(incoming := None)
  }

  /** The mount effect: "join-room" once there is a socket and a user. */
  function JoinSpec(d: Device): (r: Device)
    ensures d.hasSocket && d.user.Some? ==> r == d.(outbox := d.outbox + [JoinRoom(d.roomId, d.user.value.id)])
    ensures !(d.hasSocket && d.user.Some?) ==> r == d
  {
    if !d.hasSocket || d.user.None? then d
    else d.(outbox := d.outbox + [JoinRoom(d.roomId, d.user.value.id)])
  }

  /** The browser's "loadedmetadata": an element with a source learns that
      file's duration. Anything else: no change. */
  function MetadataSpec(d: Device, duration: real): (r: Device)
    ensures d.audio.Some? && d.audio.value.src != "" ==> r == d.(audio := Some(d.audio.value.(duration := Some(duration))))
    ensures d.audio.None? || d.audio.value.src == "" ==> r == d
  {
    if d.audio.Some? && d.audio.value.src != "" then d.(audio := Some(d.audio.value.(duration := Some(duration))))
    else d
  }

  /** Playback: a playing element with a source moves on to `time`. Nothing
      else changes; `handleTimeUpdate` runs only on the "timeupdate" that
      follows. */
  function PlaybackSpec(d: Device, time: real): (r: Device)
    ensures d.audio.Some? && d.audio.value.playing && d.audio.value.src != "" ==>
      r == d.(audio := Some(d.audio.value.(currentTime := time)))
    ensures d.audio.None? || !d.audio.value.playing || d.audio.value.src == "" ==> r == d
  {
    if d.audio.Some? && d.audio.value.playing && d.audio.value.src != "" then
      d.(audio := Some(d.audio.value.(currentTime := time)))
    else d
  }

  class AudioElement {
    var src: string
    var currentTime: real
    var duration: Option<real>
    var playing: bool
    var loads: nat

    function State(): Audio
      reads this
    {
      Audio(src, currentTime, duration, playing, loads)
    }

    constructor (src: string, currentTime: real, duration: Option<real>, playing: bool)
      ensures State() == Audio(src, currentTime, duration, playing, 0)
    {
      this.src := src;
      this.currentTime := currentTime;
      this.duration := duration;
      this.playing := playing;
      this.loads := 0;
    }

    /** `audio.src = url`. */
    method Load(url: string)
      modifies this
      ensures State() == Loaded(old(State()), url)
    {
      src := url;
      duration := None;
      loads := loads + 1;
    }

    /** The browser has read the metadata of the file at `src`. */
    method LoadedMetadata(d: real)
      modifies this`duration
      ensures State() == old(State()).(duration := Some(d))
    {
      duration := Some(d);
    }

    /** The browser plays on to `time`. */
    method Advance(time: real)
      modifies this`currentTime
      ensures State() == old(State()).(currentTime := time)
    {
      currentTime := time;
    }
  }

  class Player {
    const roomId: Id
    const user: Option<User>
    const session: SocketProvider
    const page: Page
    /** `audioRef.current`: null until the element is mounted. */
    var audio: AudioElement?

    var isPlaying: bool
    var progress: real
    var syncedSong: Option<Song>
    var incoming: Option<PlayRequest>

    /** A request can only have arrived on a socket. */
    ghost predicate Valid()
      reads this, session
    {
      session.Valid() && (incoming.Some? ==> session.hasSocket)
    }

    function Snapshot(): Device
      reads this, session, page, audio
    {
      Device(roomId, user, session.hasSocket, session.isHost, session.outbox, page.currentSong,
             syncedSong, isPlaying, progress, incoming,
             if audio == null then None else Some(audio.State()))
    }

    /** The component mounting inside the page: its `useState` initial
        values, and the first render, which mounts the element only if the
        page already has a current song to render. */
    constructor (roomId: Id, user: Option<User>, session: SocketProvider, page: Page)
      requires session.Valid()
      ensures Valid()
      ensures this.roomId == roomId && this.user == user && this.session == session && this.page == page
      ensures audio != null ==> fresh(audio)
      ensures Snapshot() == InitialSpec(roomId, user, session.hasSocket, session.isHost, session.outbox, page.currentSong)
    {
      this.roomId := roomId;
      this.user := user;
      this.session := session;
      this.page := page;
      if page.currentSong.Some? {
        audio := new AudioElement("", 0.0, None, false);
      } else {
        audio := null;
      }
      isPlaying := false;
      progress := 0.0;
      syncedSong := None;
      incoming := None;
    }

    /** The render after a handler: the element is mounted, empty, the
        first time there is a song to render. */
    /** A browser event on the element, outside the component's handlers. */
    method OnLoadedMetadata(duration: real)
      requires Valid()
      modifies audio
      ensures Valid()
      ensures Snapshot() == MetadataSpec(old(Snapshot()), duration)
    {
      if audio != null && audio.src != "" {
        audio.LoadedMetadata(duration);
      }
    }

    method OnPlayback(time: real)
      requires Valid()
      modifies audio
      ensures Valid()
      ensures Snapshot() == PlaybackSpec(old(Snapshot()), time)
    {
      if audio != null && audio.playing && audio.src != "" {
        audio.Advance(time);
      }
    }

    method Render()
      modifies this`audio
      ensures audio != old(audio) ==> fresh(audio)
      ensures Snapshot() == RenderSpec(old(Snapshot()))
    {
      if audio == null && (page.currentSong.Some? || syncedSong.Some?) {
        audio := new AudioElement("", 0.0, None, false);
      }
    }

    method Join()
      requires Valid()
      modifies session`outbox
      ensures Valid()
      ensures Snapshot() == JoinSpec(old(Snapshot()))
    {
      if !session.hasSocket || user.None? {
        return;
      }
      session.Emit(JoinRoom(roomId, user.value.id));
    }

    /** The "sync-state" handler (registered only once there is a socket). */
    method OnSyncState(state: SyncState)
      requires Valid() && session.hasSocket
      modifies this`isPlaying, this`progress, this`syncedSong, audio
      ensures Valid()
      ensures Snapshot() == SyncSpec(old(Snapshot()), state)
    {
      if audio == null || state.song.None? {
        return;
      }
      var song := state.song.value;
      if !session.isHost {
        syncedSong := Some(song);
        if audio.src != song.url {
          audio.Load(song.url);
        }
        audio.currentTime := OrZero(state.currentTime);
        audio.playing := state.isPlaying;
      }
      isPlaying := state.isPlaying;
      progress := Progress(OrZero(state.currentTime), audio.duration);
    }

    /** The "incoming-play-request" handler, registered only while host. */
    method OnIncomingPlayRequest(request: PlayRequest)
      requires Valid() && session.isHost
      modifies this`incoming
      ensures Valid()
      ensures Snapshot() == IncomingSpec(old(Snapshot()), request)
    {
      incoming := Some(request);
    }

    method HandleRequestResponse(accepted: bool)
      requires Valid()
      requires incoming.Some? && accepted ==> audio != null
      modifies this`incoming, this`isPlaying, audio, session`outbox, page`currentSong
      ensures Valid()
      ensures Snapshot() == RespondSpec(old(Snapshot()), accepted)
    {
      if incoming.None? {
        return;
      }
      var req := incoming.value;
      session.Emit(RespondPlayRequest(roomId, req.song, req.requestedBy, accepted));
      if accepted {
        page.SetCurrentSong(req.song);
        audio.Load(req.song.url);
        audio.currentTime := 0.0;
        audio.playing := true;
        isPlaying := true;
        session.Emit(PlaySong(roomId, req.song, 0.0));
      }
      incoming := None;
    }

    method HandleTimeUpdate()
      requires Valid()
      modifies this`progress
      ensures Valid()
      ensures Snapshot() == TimeUpdateSpec(old(Snapshot()))
    {
      if audio == null {
        return;
      }
      progress := Progress(audio.currentTime, audio.duration);
    }

    method Play()
      requires Valid()
      modifies this`isPlaying, audio, session`outbox
      ensures Valid()
      ensures Snapshot() == PlaySpec(old(Snapshot()))
    {
      var song := if page.currentSong.Some? then page.currentSong else syncedSong;
      if !session.isHost || song.None? || audio == null {
        return;
      }
      if audio.src != song.value.url {
        audio.Load(song.value.url);
        audio.currentTime := 0.0;
      }
      audio.playing := true;
      isPlaying := true;
      session.Emit(PlaySong(roomId, song.value, audio.currentTime));
    }

    method Pause()
      requires Valid()
      modifies this`isPlaying, audio, session`outbox
      ensures Valid()
      ensures Snapshot() == PauseSpec(old(Snapshot()))
    {
      if !session.isHost || audio == null {
        return;
      }
      audio.playing := false;
      isPlaying := false;
      session.Emit(PauseSong(roomId, audio.currentTime));
    }

    /** `seek` with the slider's value, a percentage. */
    method Seek(value: real)
      requires Valid()
      requires session.isHost && audio != null ==> audio.duration.Some?
      modifies this`progress, audio, session`outbox
      ensures Valid()
      ensures Snapshot() == SeekSpec(old(Snapshot()), value)
    {
      if !session.isHost || audio == null {
        return;
      }
      var time := SeekTime(value, audio.duration.value);
      audio.currentTime := time;
      progress := value;
      session.Emit(SeekSong(roomId, time));
    }
  }
}
