/** The browser player of public/js/player.js: the module-level
    `playerState` object and the `<audio>` element, and the handlers that
    apply the server's broadcasts to them or send the user's requests to the
    server. Socket emits are appended to the player's `sent` list. */
module Player {
  import opened Wrappers
  import RoomServer

  type RoomId = string
  type Track = RoomServer.Track

  /** The fields of the `<audio>` element the handlers read or write.
      `playCalls` counts the `play()` invocations the element has received;
      `volume` is the playback volume, which only the local slider sets. */
  datatype Audio = Audio(paused: bool, currentTime: real, src: string, readyState: nat, volume: real, playCalls: nat)

  /** `element.play()`: playback starts (`paused` clears) and the call is
      counted. The promise it returns is not modelled. */
  function Play(a: Audio): (b: Audio)
    ensures !b.paused && b.playCalls == a.playCalls + 1
    ensures b.(paused := a.paused, playCalls := a.playCalls) == a
  {
    a.(paused := false, playCalls := a.playCalls + 1)
  }

  /** `element.pause()` */
  function Pause(a: Audio): (b: Audio)
    ensures b.paused
    ensures b.(paused := a.paused) == a
  {
    a.(paused := true)
  }

  /** The messages the player sends: `leaveRoom`, `joinRoom`, `togglePlay`,
      `prevTrack`, `nextTrack`, each with a room id. */
  datatype Command = Leave(roomId: RoomId) | Join(roomId: RoomId) | Toggle(roomId: RoomId) | Prev(roomId: RoomId) | Next(roomId: RoomId)

  /** The `roomState` payload: the server's room record. Its `playlist`
      may be missing. */
  datatype RoomSnapshot = RoomSnapshot(currentTrack: Option<Track>, playlist: Option<seq<Track>>, isPlaying: bool, currentTime: real)

  // ---------------------------------------------------------------------
  // Room membership
  // ---------------------------------------------------------------------

  /** `playerState.roomId` is truthy: set, and not the empty string. */
  predicate InRoom(roomId: Option<RoomId>)
  {
    roomId.Some? && roomId.value != ""
  }

  /** The room a (truthy) `roomId` designates, as a set. */
  function CurrentRooms(roomId: Option<RoomId>): (s: set<RoomId>)
    ensures |s| <= 1
    ensures InRoom(roomId) <==> s != {}
  {
    if InRoom(roomId) then {roomId.value} else {}
  }

  /** The rooms that a sequence of sent messages asks the player to be in:
      each `joinRoom` adds its room and each `leaveRoom` removes its own. */
  function Requested(sent: seq<Command>): set<RoomId>
  {
    if sent == [] then {}
    else
      var before := Requested(sent[..|sent| - 1]);
      match sent[|sent| - 1]
      case Join(r) => before + {r}
      case Leave(r) => before - {r}
      case _ => before
  }

  /** The messages `joinRoom(roomId)` sends: a `leaveRoom` for the previous
      room only when one is set, then the `joinRoom`. */
  function JoinMessages(current: Option<RoomId>, roomId: RoomId): (m: seq<Command>)
    ensures 1 <= |m| <= 2
    ensures m[|m| - 1] == Join(roomId)
    ensures |m| == 2 <==> InRoom(current)
    ensures |m| == 2 ==> m[0] == Leave(current.value)
  {
    (if InRoom(current) then [Leave(current.value)] else []) + [Join(roomId)]
  }

  /** Joining leaves the player in exactly the new room: the previous
      room, when there was one, is left first. */
  lemma JoinLeavesOneRoom(sent: seq<Command>, current: Option<RoomId>, roomId: RoomId)
    requires Requested(sent) - {""} == CurrentRooms(current)
    ensures Requested(sent + JoinMessages(current, roomId)) - {""} == CurrentRooms(Some(roomId))
  {
    var m := JoinMessages(current, roomId);
    var all := sent + m;
    assert all[..|all| - 1] == sent + m[..|m| - 1];
    if InRoom(current) {
      var left := sent + [Leave(current.value)];
      assert m[..|m| - 1] == [Leave(current.value)];
      assert left[..|left| - 1] == sent;
      assert Requested(left) == Requested(sent) - {current.value};
    } else {
      assert m[..|m| - 1] == [];
      assert sent + [] == sent;
    }
  }

  /** A message other than `joinRoom` and `leaveRoom` does not change the
      rooms asked for. */
  lemma OtherMessageKeepsRooms(sent: seq<Command>, c: Command)
    requires !c.Join? && !c.Leave?
    ensures Requested(sent + [c]) == Requested(sent)
  {
    assert (sent + [c])[..|sent|] == sent;
  }

  // ---------------------------------------------------------------------
  // Drift tolerance
  // ---------------------------------------------------------------------

  /** `Math.abs(local - target) > 1`: the element is more than one second
      away from the position the server reports. */
  function NeedsResync(local: real, target: real): (b: bool)
    ensures b <==> (local - target > 1.0 || target - local > 1.0)
    ensures !b ==> target - 1.0 <= local <= target + 1.0
  {
    (if local >= target then local - target else target - local) > 1.0
  }

  /** A three-second drift is corrected; 0.4 seconds, or exactly one second,
      is tolerated. */
  lemma ResyncExamples()
    ensures NeedsResync(10.0, 13.0)
    ensures !NeedsResync(10.0, 10.4)
    ensures !NeedsResync(10.0, 11.0) && !NeedsResync(11.0, 10.0)
  {
  }

  /** The observable state of one player: the fields of `playerState` the
      handlers use, the volume slider and the audio element. */
  datatype View = View(
    currentTrack: Option<Track>,
    isPlaying: bool,
    currentTime: real,
    volume: real,
    roomId: Option<RoomId>,
    playlist: seq<Track>,
    seeking: bool,
    sliderValue: real,
    audio: Audio)

  class Player {
    var currentTrack: Option<Track>
    var isPlaying: bool
    var currentTime: real
    var volume: real
    var roomId: Option<RoomId>
    var playlist: seq<Track>
    var seeking: bool
    var sliderValue: real
    var audio: Audio
    var sent: seq<Command>

    function Current(): View
      reads this
    {
      View(currentTrack, isPlaying, currentTime, volume, roomId, playlist, seeking, sliderValue, audio)
    }

    /** The messages sent so far ask for exactly the current room (a room
        with the empty id, which is never left, aside). */
    ghost predicate Valid()
      reads this
    {
      Requested(sent) - {""} == CurrentRooms(roomId)
    }

    /** The initial `playerState` (player.js:7-17) after `initPlayer` has
        copied the volume to the element and the slider. */
    constructor (element: Audio)
      ensures Valid()
      ensures Current() == View(None, false, 0.0, 1.0, None, [], false, 100.0, element.(volume := 1.0))
      ensures sent == []
    {
      currentTrack := None;
      isPlaying := false;
      currentTime := 0.0;
      volume := 1.0;
      roomId := None;
      playlist := [];
      seeking := false;
      audio := element.(volume := 1.0);
      sliderValue := 1.0 * 100.0;
      sent := [];
    }

    /** `joinRoom(roomId)`: leaves the previous room when one is set, records
        the new id and asks to join it. */
    method JoinRoom(roomId: RoomId)
      requires Valid()
      modifies this
      ensures Valid()
      ensures sent == old(sent) + JoinMessages(old(this.roomId), roomId)
      ensures Current() == old(Current()).(roomId := Some(roomId))
      ensures Requested(sent) - {""} == CurrentRooms(Some(roomId))
    {
      ghost var before := sent;
      ghost var messages := JoinMessages(this.roomId, roomId);
      JoinLeavesOneRoom(before, this.roomId, roomId);
      if InRoom(this.roomId) {
        sent := sent + [Leave(this.roomId.value)];
      }
      this.roomId := Some(roomId);
      sent := sent + [Join(roomId)];
      assert sent == before + messages;
    }

    /** Sends one message that is neither `joinRoom` nor `leaveRoom`; the
        callers send it only for a joined room. */
    method Send(c: Command)
      requires Valid() && !c.Join? && !c.Leave?
      modifies this`sent
      ensures Valid()
      ensures sent == old(sent) + [c]
    {
      ghost var before := sent;
      OtherMessageKeepsRooms(before, c);
      sent := sent + [c];
      assert Requested(sent) == Requested(before);
    }

    /** `togglePlay()`: asks the server to toggle only when a room is joined
        and a track is loaded; otherwise nothing is sent. */
    method TogglePlay()
      requires Valid()
      modifies this`sent
      ensures Valid()
      ensures InRoom(roomId) && currentTrack.Some? ==> sent == old(sent) + [Toggle(roomId.value)]
      ensures !(InRoom(roomId) && currentTrack.Some?) ==> sent == old(sent)
    {
      if !InRoom(roomId) || currentTrack.None? {
        return;
      }
      Send(Toggle(roomId.value));
    }

    /** `playPrevious()`: asks for the previous track only in a room. */
    method PlayPrevious()
      requires Valid()
      modifies this`sent
      ensures Valid()
      ensures sent == old(sent) + if InRoom(roomId) then [Prev(roomId.value)] else []
    {
      if !InRoom(roomId) {
        return;
      }
      Send(Prev(roomId.value));
    }

    /** `playNext()`: asks for the next track only in a room. */
    method PlayNext()
      requires Valid()
      modifies this`sent
      ensures Valid()
      ensures sent == old(sent) + if InRoom(roomId) then [Next(roomId.value)] else []
    {
      if !InRoom(roomId) {
        return;
      }
      Send(Next(roomId.value));
    }

    /** `handleTrackEnd()`: the element's `ended` event asks for the next
        track only in a room. */
    method HandleTrackEnd()
      requires Valid()
      modifies this`sent
      ensures Valid()
      ensures sent == old(sent) + if InRoom(roomId) then [Next(roomId.value)] else []
    {
      if InRoom(roomId) {
        Send(Next(roomId.value));
      }
    }

    /** `loadTrack(track)`: the track becomes the current one and its URL
        the element's source. */
    method LoadTrack(track: Track)
      modifies this`currentTrack, this`audio
      ensures Current() == old(Current()).(currentTrack := Some(track), audio := old(audio).(src := track.cloudinaryUrl))
    {
      currentTrack := Some(track);
      audio := audio.(src := track.cloudinaryUrl);
    }

    /** `handleNowPlaying(track)` */
    method HandleNowPlaying(track: Track)
      modifies this`currentTrack, this`audio
      ensures Current() == old(Current()).(currentTrack := Some(track), audio := old(audio).(src := track.cloudinaryUrl))
    {
      LoadTrack(track);
    }

    /** `handleRoomState(state)`: copies the playlist (or `[]`), the playing
        flag and the position into `playerState`; only when the state names
        a current track does it load it, move the element to the position
        (when the element has media data) and start or pause it. */
    method HandleRoomState(state: RoomSnapshot)
      modifies this`playlist, this`isPlaying, this`currentTime, this`currentTrack, this`audio
      ensures playlist == (if state.playlist.Some? then state.playlist.value else [])
      ensures isPlaying == state.isPlaying && currentTime == state.currentTime
      ensures state.currentTrack.None? ==> currentTrack == old(currentTrack) && audio == old(audio)
      ensures state.currentTrack.Some? ==>
                && currentTrack == state.currentTrack
                && audio.src == state.currentTrack.value.cloudinaryUrl
                && audio.currentTime == (if old(audio.readyState) > 0 then state.currentTime else old(audio.currentTime))
                && audio.paused == !state.isPlaying
                && audio.playCalls == old(audio.playCalls) + (if state.isPlaying then 1 else 0)
                && audio.readyState == old(audio.readyState) && audio.volume == old(audio.volume)
    {
      playlist := if state.playlist.Some? then state.playlist.value else [];
      isPlaying := state.isPlaying;
      currentTime := state.currentTime;
      if state.currentTrack.Some? {
        LoadTrack(state.currentTrack.value);
        if audio.readyState > 0 {
          audio := audio.(currentTime := state.currentTime);
        }
        if state.isPlaying {
          audio := Play(audio);
        } else {
          audio := Pause(audio);
        }
      }
    }

    /** `handleSeekUpdate(time)`: ignored while a local seek is in progress;
        otherwise the element jumps to `time`, without a range check. */
    method HandleSeekUpdate(time: real)
      modifies this`audio
      ensures seeking ==> audio == old(audio)
      ensures !seeking ==> audio == old(audio).(currentTime := time)
    {
      if seeking {
        return;
      }
      audio := audio.(currentTime := time);
    }

    /** `handlePlaybackUpdate(data)`: records the playing flag; starts the
        element only if it is paused (so an element already playing gets no
        second `play()`), or pauses it; and moves it to the reported position
        when it has drifted more than one second and no local seek is in
        progress. */
    method HandlePlaybackUpdate(playing: bool, time: real)
      modifies this`isPlaying, this`audio
      ensures isPlaying == playing
      ensures audio.paused == !playing
      ensures audio.playCalls == old(audio.playCalls) + (if playing && old(audio.paused) then 1 else 0)
      ensures audio.currentTime ==
                (if NeedsResync(old(audio.currentTime), time) && !seeking then time else old(audio.currentTime))
      ensures !seeking ==> time - 1.0 <= audio.currentTime <= time + 1.0
      ensures audio.src == old(audio.src) && audio.readyState == old(audio.readyState) && audio.volume == old(audio.volume)
    {
      isPlaying := playing;
      if playing {
        if audio.paused {
          audio := Play(audio);
        }
      } else {
        audio := Pause(audio);
      }
      if NeedsResync(audio.currentTime, time) && !seeking {
        audio := audio.(currentTime := time);
      }
    }

    /** `handlePlaylistUpdate(playlist)` */
    method HandlePlaylistUpdate(p: seq<Track>)
      modifies this`playlist
      ensures Current() == old(Current()).(playlist := p)
    {
      playlist := p;
    }

    /** `handleRemoteVolumeChange(volume)`: moves the slider only; neither
        the element's volume nor `playerState.volume` changes. */
    method HandleRemoteVolumeChange(v: real)
      modifies this`sliderValue
      ensures Current() == old(Current()).(sliderValue := v * 100.0)
    {
      sliderValue := v * 100.0;
    }
  }
}
