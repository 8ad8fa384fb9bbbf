/**
 * One device in a room, as the socket provider, the room page, its song
 * cards and the player make it up together. Handlers never run at the same
 * time, so the device is a state machine: `Step` applies one input to the
 * `Device` value, and `Deliver` dispatches that input to the handler that
 * the page wires it to, proved to agree with `Step`.
 */
module Room {
  import opened Wire
  import opened SocketContext
  import opened RoomDashboard
  import opened AudioPlayer
  import opened SongCard

  /** The inputs of one device: its transport controls and song buttons,
      the element's time updates, the host's Accept/Reject dialog, the
      socket events it subscribes to, and the browser's work on the element
      (reading a file's metadata, playing on). */
  datatype Input =
    | PlayControl
    | PauseControl
    | SeekControl(value: real)
    | TimeUpdate
    | PressSong(song: Song)
    | RespondControl(accepted: bool)
    | SyncEvent(state: SyncState)
    | IncomingEvent(request: PlayRequest)
    | ResponseEvent(response: PlayResponse)
    | HostStatusEvent(status: bool)
    | MetadataLoaded(duration: real)
    | Playback(time: real)

  /** When an input can happen at all: socket events need a socket (and
      "request-play-response" a user, "incoming-play-request" the host
      role, under which alone it is subscribed); the dialog is shown only to
      the host, with a request in the slot and the player rendered; a seek
      on the host needs a known duration. The browser reads metadata only of
      an element with a source, and plays forward only an element that is
      playing one. */
  predicate Enabled(d: Device, i: Input)
  {
    match i
    case SeekControl(_) => SeekAllowed(d)
    case RespondControl(_) => d.isHost && d.incoming.Some? && SongToRender(d).Some? && d.audio.Some?
    case SyncEvent(_) => d.hasSocket
    case IncomingEvent(_) => d.isHost
    case ResponseEvent(_) => d.hasSocket && d.user.Some?
    case HostStatusEvent(_) => d.hasSocket
    case MetadataLoaded(x) => d.audio.Some? && d.audio.value.src != "" && 0.0 <= x
    case Playback(t) =>
      d.audio.Some? && d.audio.value.playing && d.audio.value.src != "" && d.audio.value.currentTime <= t
    case _ => true
  }

  /** The handlers' reaction to one input, before React re-renders. A
      "sync-state" reaches the player's handler, and the page's when there
      is a user (the page subscribes only then): the dispatch with the
      corrected "sync-state" cleanup (`Subscriptions`). */
  function Dispatch(d: Device, i: Input): Device
    requires Enabled(d, i)
  {
    match i
    case PlayControl => PlaySpec(d)
    case PauseControl => PauseSpec(d)
    case SeekControl(v) => SeekSpec(d, v)
    case TimeUpdate => TimeUpdateSpec(d)
    case PressSong(song) =>
      var o := Press(d.roomId, d.hasSocket, d.user, d.isHost, song);
      d.(currentSong := if o.newCurrent.Some? then o.newCurrent else d.currentSong,
         outbox := d.outbox + o.emitted)
    case RespondControl(accepted) => RespondSpec(d, accepted)
    case SyncEvent(state) =>
      SyncSpec(if d.user.Some? then d.(currentSong := AdoptSync(d.currentSong, state)) else d, state)
    case IncomingEvent(request) => IncomingSpec(d, request)
    case ResponseEvent(resp) => d.(currentSong := AdoptResponse(d.currentSong, resp, d.user.value))
    case HostStatusEvent(status) => d.(isHost := status)
    case MetadataLoaded(x) => MetadataSpec(d, x)
    case Playback(t) => PlaybackSpec(d, t)
  }

  /** One input: the handlers run, then the component re-renders. */
  function Step(d: Device, i: Input): Device
    requires Enabled(d, i)
  {
    RenderSpec(Dispatch(d, i))
  }

  /** No handler creates the element or clears a song: the element exists
      only once a song renders, and every step keeps that. */
  lemma StepKeepsElementMounted(d: Device, i: Input)
    requires Enabled(d, i) && ElementMounted(d)
    ensures ElementMounted(Step(d, i))
  {
  }

  /** Over any run, starting from the state at mount. */
  lemma {:induction false} RunKeepsElementMounted(d: Device, inputs: seq<Input>)
    requires Runs(d, inputs) && ElementMounted(d)
    ensures ElementMounted(Run(d, inputs))
    decreases |inputs|
  {
    if inputs != [] {
      StepKeepsElementMounted(d, inputs[0]);
      RunKeepsElementMounted(Step(d, inputs[0]), inputs[1..]);
    }
  }

  /** The first "sync-state" on a device with nothing to render: the page
      adopts the song, but the player's handler finds no element and
      returns, so playback state is untouched; the render then mounts an
      empty, paused element, which the next "sync-state" will drive. */
  lemma FirstSyncFindsNoElement(d: Device, state: SyncState)
    requires d.hasSocket && d.user.Some? && d.audio.None? && state.song.Some?
    ensures var r := Step(d, SyncEvent(state));
      && r.currentSong == state.song
      && r.audio == Some(EmptyAudio)
      && r.isPlaying == d.isPlaying && r.progress == d.progress && r.syncedSong == d.syncedSong
      && r.outbox == d.outbox
  {
  }

  /** Without a user the page has no "sync-state" handler: its song stays,
      and only the player's handler can react. */
  lemma SyncWithoutUserKeepsPageSong(d: Device, state: SyncState)
    requires d.hasSocket && d.user.None?
    ensures Step(d, SyncEvent(state)).currentSong == d.currentSong
  {
  }

  /** Every input of the sequence is enabled when it arrives. */
  predicate Runs(d: Device, inputs: seq<Input>)
    decreases |inputs|
  {
    inputs == [] || (Enabled(d, inputs[0]) && Runs(Step(d, inputs[0]), inputs[1..]))
  }

  function Run(d: Device, inputs: seq<Input>): Device
    requires Runs(d, inputs)
    decreases |inputs|
  {
    if inputs == [] then d else Run(Step(d, inputs[0]), inputs[1..])
  }

  /** The role changes only through "host-status"; no other input, however
      many, touches it. */
  lemma {:induction false} RoleOnlyFromHostStatus(d: Device, inputs: seq<Input>)
    requires Runs(d, inputs)
    requires forall k :: 0 <= k < |inputs| ==> !inputs[k].HostStatusEvent?
    ensures Run(d, inputs).isHost == d.isHost
    decreases |inputs|
  {
    if inputs != [] {
      RoleOnlyFromHostStatus(Step(d, inputs[0]), inputs[1..]);
    }
  }

  /** A listener may press play, pause and seek any number of times:
      nothing changes, the element is untouched and nothing is sent (in
      any state the device can be in, where the element is mounted exactly
      when a song renders). */
  lemma {:induction false} ListenerControlsInert(d: Device, inputs: seq<Input>)
    requires !d.isHost && ElementMounted(d)
    requires forall k :: 0 <= k < |inputs| ==>
               inputs[k].PlayControl? || inputs[k].PauseControl? || inputs[k].SeekControl?
    ensures Runs(d, inputs) && Run(d, inputs) == d
    decreases |inputs|
  {
    if inputs != [] {
      ListenerControlsInert(d, inputs[1..]);
    }
  }

  /** The number of song-button presses in a run of inputs. */
  function Presses(inputs: seq<Input>): nat
  {
    if inputs == [] then 0 else (if inputs[0].PressSong? then 1 else 0) + Presses(inputs[1..])
  }

  /** Whatever a listener does and receives while it stays a listener:
      the only messages it sends are "request-play", one per song-button
      press once it has a room, a socket and a user; it never sends a
      transport message. */
  lemma {:induction false} ListenerOnlyRequests(d: Device, inputs: seq<Input>)
    requires !d.isHost && Runs(d, inputs)
    requires forall k :: 0 <= k < |inputs| ==> !inputs[k].HostStatusEvent?
    ensures var r := Run(d, inputs);
      && !r.isHost
      && r.hasSocket == d.hasSocket && r.roomId == d.roomId && r.user == d.user
      && |d.outbox| <= |r.outbox| && r.outbox[..|d.outbox|] == d.outbox
      && (forall k :: |d.outbox| <= k < |r.outbox| ==> r.outbox[k].RequestPlay?)
      && (d.roomId != "" && d.hasSocket && d.user.Some? ==> |r.outbox| == |d.outbox| + Presses(inputs))
    decreases |inputs|
  {
    if inputs != [] {
      var d1 := Step(d, inputs[0]);
      assert !d1.isHost && |d1.outbox| <= |d.outbox| + 1 && d1.outbox[..|d.outbox|] == d.outbox;
      assert forall k :: |d.outbox| <= k < |d1.outbox| ==> d1.outbox[k].RequestPlay?;
      assert d.roomId != "" && d.hasSocket && d.user.Some? ==>
        |d1.outbox| == |d.outbox| + (if inputs[0].PressSong? then 1 else 0);
      ListenerOnlyRequests(d1, inputs[1..]);
      var r := Run(d1, inputs[1..]);
      assert r.outbox[..|d1.outbox|] == d1.outbox;
      assert r.outbox[..|d.outbox|] == r.outbox[..|d1.outbox|][..|d.outbox|];
      forall k | |d.outbox| <= k < |r.outbox|
        ensures r.outbox[k].RequestPlay?
      {
        if k < |d1.outbox| {
          assert r.outbox[k] == d1.outbox[k];
        }
      }
    }
  }

  /** A listener's element changes only through "sync-state": no control,
      song button, time update or answer to its requests touches it. The
      browser moves its position while it plays and fills in the duration
      of its file, but its source, loads and play state stay; without those
      two browser inputs the element stays exactly as it was. The one other
      change is its mounting, empty, when a song first renders (an empty
      element neither plays nor has a file). */
  lemma {:induction false} ListenerAudioOnlyFromSync(d: Device, inputs: seq<Input>)
    requires !d.isHost && Runs(d, inputs)
    requires forall k :: 0 <= k < |inputs| ==> !inputs[k].HostStatusEvent? && !inputs[k].SyncEvent?
    ensures var a := Run(d, inputs).audio;
      && (d.audio.None? ==> a.None? || a == Some(EmptyAudio))
      && (d.audio.Some? ==>
            && a.Some?
            && a.value.src == d.audio.value.src && a.value.loads == d.audio.value.loads
            && a.value.playing == d.audio.value.playing
            && ((forall k :: 0 <= k < |inputs| ==> !inputs[k].Playback?) ==>
                  a.value.currentTime == d.audio.value.currentTime)
            && ((forall k :: 0 <= k < |inputs| ==> !inputs[k].MetadataLoaded?) ==>
                  a.value.duration == d.audio.value.duration))
      && (d.audio.Some? && d.audio.value.src == "" ==> a == d.audio)
    ensures (forall k :: 0 <= k < |inputs| ==> !inputs[k].Playback? && !inputs[k].MetadataLoaded?) ==>
      Run(d, inputs).audio == d.audio || (d.audio.None? && Run(d, inputs).audio == Some(EmptyAudio))
    decreases |inputs|
  {
    if inputs != [] {
      var d1 := Step(d, inputs[0]);
      ListenerAudioOnlyFromSync(d1, inputs[1..]);
      assert forall k :: 0 <= k < |inputs[1..]| ==> inputs[1..][k] == inputs[k + 1];
      if d.audio.None? {
        assert d1.audio.None? || d1.audio == Some(EmptyAudio);
      } else {
        var a, a1 := d.audio.value, d1.audio.value;
        assert a1.src == a.src && a1.loads == a.loads && a1.playing == a.playing;
        assert !inputs[0].Playback? ==> a1.currentTime == a.currentTime;
        assert !inputs[0].MetadataLoaded? ==> a1.duration == a.duration;
      }
    }
  }

  /** One "sync-state" with a song puts a listener's element on it. */
  lemma ListenerFollowsSync(d: Device, state: SyncState)
    requires !d.isHost && d.hasSocket && d.audio.Some? && state.song.Some?
    ensures var r := Step(d, SyncEvent(state));
      && !r.isHost
      && r.audio.Some?
      && r.audio.value.src == state.song.value.url
      && r.audio.value.currentTime == OrZero(state.currentTime)
      && r.audio.value.playing == state.isPlaying
  {
  }

  /** A listener converges on the last "sync-state" it received: whatever
      state it was in, after that event and any number of its own inputs
      (other than another "sync-state" or a role change), its element holds
      that song, playing or paused as the state said, and, until the
      browser plays it on, at that position. */
  lemma ListenerConvergesOnLastSync(d: Device, state: SyncState, after: seq<Input>)
    requires !d.isHost && d.hasSocket && d.audio.Some? && state.song.Some?
    requires Runs(Step(d, SyncEvent(state)), after)
    requires forall k :: 0 <= k < |after| ==> !after[k].HostStatusEvent? && !after[k].SyncEvent?
    ensures var a := Run(Step(d, SyncEvent(state)), after).audio;
      && a.Some?
      && a.value.src == state.song.value.url
      && a.value.playing == state.isPlaying
      && ((forall k :: 0 <= k < |after| ==> !after[k].Playback?) ==> a.value.currentTime == OrZero(state.currentTime))
  {
    ListenerFollowsSync(d, state);
    ListenerAudioOnlyFromSync(Step(d, SyncEvent(state)), after);
  }

  /** The host's request slot holds one request: the last one that arrived,
      as long as no Accept/Reject has cleared it since. There is no queue. */
  lemma {:induction false} LastRequestWins(d: Device, inputs: seq<Input>, i: nat)
    requires Runs(d, inputs)
    requires i < |inputs| && inputs[i].IncomingEvent?
    requires forall k :: i < k < |inputs| ==> !inputs[k].IncomingEvent? && !inputs[k].RespondControl?
    ensures Run(d, inputs).incoming == Some(inputs[i].request)
    decreases |inputs|
  {
    if i == 0 {
      SlotKept(Step(d, inputs[0]), inputs[1..]);
    } else {
      LastRequestWins(Step(d, inputs[0]), inputs[1..], i - 1);
    }
  }

  /** Only a new request or an answer changes the slot. */
  lemma {:induction false} SlotKept(d: Device, inputs: seq<Input>)
    requires Runs(d, inputs)
    requires forall k :: 0 <= k < |inputs| ==> !inputs[k].IncomingEvent? && !inputs[k].RespondControl?
    ensures Run(d, inputs).incoming == d.incoming
    decreases |inputs|
  {
    if inputs != [] {
      SlotKept(Step(d, inputs[0]), inputs[1..]);
    }
  }

  /** Accepting the request in the slot sends the answer and exactly one
      "play-song", at position 0, and leaves the host playing the requested
      song from the start; rejecting it sends only the answer and changes
      nothing else but the slot. */
  lemma AcceptAndReject(d: Device, accepted: bool)
    requires Enabled(d, RespondControl(accepted))
    ensures var r := Step(d, RespondControl(accepted));
      var req := d.incoming.value;
      && r.incoming.None?
      && r.isHost == d.isHost
      && (accepted ==>
            && r.outbox == d.outbox + [RespondPlayRequest(d.roomId, req.song, req.requestedBy, true),
                                       PlaySong(d.roomId, req.song, 0.0)]
            && SongToRender(r) == Some(req.song)
            && r.audio.value.src == req.song.url && r.audio.value.currentTime == 0.0
            && r.audio.value.playing && r.isPlaying)
      && (!accepted ==>
            && r.outbox == d.outbox + [RespondPlayRequest(d.roomId, req.song, req.requestedBy, false)]
            && r.currentSong == d.currentSong && r.audio == d.audio && r.isPlaying == d.isPlaying
            && r.progress == d.progress && r.syncedSong == d.syncedSong)
  {
  }

  /** `handleTimeUpdate` undoes `seek`'s scaling: with a known, non-zero
      duration, the progress it computes from the sought position is the
      slider value the host chose. */
  lemma ProgressInvertsSeekTime(value: real, duration: real)
    requires duration != 0.0
    ensures Progress(SeekTime(value, duration), Some(duration)) == value
  {
  }

  /** A host's seek followed by the element's "timeupdate": the element is
      at the sought position and progress is back at the slider value. */
  lemma SeekThenTimeUpdate(d: Device, value: real)
    requires d.isHost && d.audio.Some? && d.audio.value.duration.Some? && d.audio.value.duration.value != 0.0
    ensures var dur := d.audio.value.duration.value;
      && Runs(d, [SeekControl(value), TimeUpdate])
      && Run(d, [SeekControl(value), TimeUpdate]).audio == Some(d.audio.value.(currentTime := SeekTime(value, dur)))
      && Run(d, [SeekControl(value), TimeUpdate]).progress == value
      && Run(d, [SeekControl(value), TimeUpdate]).outbox == d.outbox + [SeekSong(d.roomId, SeekTime(value, dur))]
  {
    var d1 := Step(d, SeekControl(value));
    ProgressInvertsSeekTime(value, d.audio.value.duration.value);
    assert Run(d, [SeekControl(value), TimeUpdate]) == Run(d1, [TimeUpdate]);
    assert Run(d1, [TimeUpdate]) == Step(d1, TimeUpdate);
  }

  /** While the element plays, "timeupdate" turns the position the browser
      has reached into progress: the position over the duration, or over 1
      while the duration is unknown. */
  lemma PlaybackThenTimeUpdate(d: Device, time: real)
    requires Enabled(d, Playback(time))
    ensures Runs(d, [Playback(time), TimeUpdate])
    ensures var r := Run(d, [Playback(time), TimeUpdate]);
      && r.audio == Some(d.audio.value.(currentTime := time))
      && r.progress == Progress(time, d.audio.value.duration)
      && (d.audio.value.duration.Some? && d.audio.value.duration.value != 0.0 ==>
            r.progress == time / d.audio.value.duration.value * 100.0)
      && r.(progress := d.progress, audio := d.audio) == d
  {
    var d1 := Step(d, Playback(time));
    assert Run(d, [Playback(time), TimeUpdate]) == Run(d1, [TimeUpdate]);
    assert Run(d1, [TimeUpdate]) == Step(d1, TimeUpdate);
  }

  /** The host's seek can happen: a host whose page has a song mounts the
      element, plays the song (loading it), the browser reads the file's
      duration, and the seek then moves to that share of it. */
  lemma HostSeeksAfterMetadata(roomId: Id, user: Option<User>, outbox: seq<Msg>, song: Song,
                               duration: real, value: real)
    requires song.url != "" && 0.0 <= duration
    ensures var d := InitialSpec(roomId, user, true, true, outbox, Some(song));
      var inputs := [PlayControl, MetadataLoaded(duration), SeekControl(value)];
      && Runs(d, inputs)
      && Run(d, inputs).audio == Some(Audio(song.url, SeekTime(value, duration), Some(duration), true, 1))
      && Run(d, inputs).progress == value
      && Run(d, inputs).outbox == outbox + [PlaySong(roomId, song, 0.0), SeekSong(roomId, SeekTime(value, duration))]
  {
    var d := InitialSpec(roomId, user, true, true, outbox, Some(song));
    var d1 := Step(d, PlayControl);
    assert d1.audio == Some(Audio(song.url, 0.0, None, true, 1));
    var d2 := Step(d1, MetadataLoaded(duration));
    assert d2.audio == Some(Audio(song.url, 0.0, Some(duration), true, 1));
    var d3 := Step(d2, SeekControl(value));
    assert Run(d2, [SeekControl(value)]) == d3;
    assert [PlayControl, MetadataLoaded(duration), SeekControl(value)][1..] == [MetadataLoaded(duration), SeekControl(value)];
    assert [MetadataLoaded(duration), SeekControl(value)][1..] == [SeekControl(value)];
  }

  /** A listener already on the synced song, whose file's duration is
      known, shows the position as a share of that duration. A listener
      that has to load the song divides by 1 instead: right after the load
      the duration is unknown. */
  lemma ListenerSyncProgress(d: Device, state: SyncState)
    requires !d.isHost && d.hasSocket && d.audio.Some? && state.song.Some?
    ensures var r := Step(d, SyncEvent(state));
      var a, time := d.audio.value, OrZero(state.currentTime);
      && (a.src == state.song.value.url && a.duration.Some? && a.duration.value != 0.0 ==>
            r.progress == time / a.duration.value * 100.0)
      && (a.src != state.song.value.url ==> r.progress == time * 100.0)
  {
  }

  /** Dispatches one input to the handler the page wires it to, then lets
      the component re-render. */
  method Deliver(p: Player, i: Input)
    requires p.Valid() && Enabled(p.Snapshot(), i)
    modifies p, p.session, p.page, p.audio
    ensures p.Valid()
    ensures p.Snapshot() == Step(old(p.Snapshot()), i)
  {
    ghost var before := p.Snapshot();
    match i {
      case PlayControl => p.Play();
      case PauseControl => p.Pause();
      case SeekControl(v) => p.Seek(v);
      case TimeUpdate => p.HandleTimeUpdate();
      case PressSong(song) => SongCard.PlaySong(song, p.roomId, p.session, p.user, p.page);
      case RespondControl(accepted) => p.HandleRequestResponse(accepted);
      case SyncEvent(state) =>
        if p.user.Some? {
          p.page.OnSyncState(state);
        }
        p.OnSyncState(state);
      case IncomingEvent(request) => p.OnIncomingPlayRequest(request);
      case ResponseEvent(resp) => p.page.OnRequestPlayResponse(resp, p.user.value);
      case HostStatusEvent(status) => p.session.OnHostStatus(status);
      case MetadataLoaded(x) => p.OnLoadedMetadata(x);
      case Playback(t) => p.OnPlayback(t);
    }
    assert p.Snapshot() == Dispatch(before, i);
    p.Render();
  }
}
