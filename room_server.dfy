/** The per-room playback state that the Socket.IO handlers of server.js keep
    in memory, and the handlers that change it. Node runs each handler to
    completion before the next one starts, so the handlers are modelled as
    sequential methods of one `Server` object; `Date.now()` is the `now`
    parameter (milliseconds) and every `emit` is appended to `emitted`. */
module RoomServer {
  import opened Wrappers

  type RoomId = string

  /** A track object as clients send it with `addTrack`. The server reads only
      `id`; the player reads the rest. */
  datatype Track = Track(id: Option<string>, title: string, artist: string, cloudinaryUrl: string)

  /** What the `===` test in `nextTrack`/`prevTrack` compares: a track
      without an id reads as `undefined`, and the absence of a current track
      is compared as `null`, which no track id equals. */
  datatype IdKey = Undefined | Null | Id(s: string)

  function KeyOf(t: Track): IdKey
  {
    if t.id.Some? then Id(t.id.value) else Undefined
  }

  /** `room.currentTrack ? room.currentTrack.id : null` */
  function CurrentKey(current: Option<Track>): IdKey
  {
    if current.Some? then KeyOf(current.value) else Null
  }

  /** `!track.id`: the id is missing or the empty string. */
  predicate HasFalsyId(t: Track)
  {
    t.id.None? || t.id.value == ""
  }

  /** `playlist.findIndex(track => track.id === key)`: the first index whose
      id matches, or -1 when none does. */
  function FindIndex(playlist: seq<Track>, key: IdKey): (i: int)
    ensures -1 <= i < |playlist|
    ensures i >= 0 ==> KeyOf(playlist[i]) == key
    ensures i >= 0 ==> forall j :: 0 <= j < i ==> KeyOf(playlist[j]) != key
    ensures i == -1 ==> forall j :: 0 <= j < |playlist| ==> KeyOf(playlist[j]) != key
  {
    if playlist == [] then -1
    else if KeyOf(playlist[0]) == key then 0
    else
      var i := FindIndex(playlist[1..], key);
      if i == -1 then -1 else i + 1
  }

  /** One entry of the `rooms` object. `currentTime` is in seconds and is
      only brought up to date on pause and seek; `lastUpdateTime` is the
      wall-clock instant (ms) it was last anchored at. */
  datatype Room = Room(
    currentTrack: Option<Track>,
    playlist: seq<Track>,
    isPlaying: bool,
    currentTime: real,
    lastUpdateTime: int)

  /** The record `joinRoom` creates for an unknown room id. */
  function NewRoom(now: int): Room
  {
    Room(None, [], false, 0.0, now)
  }

  /** `(now - lastUpdateTime) / 1000`: milliseconds to seconds. */
  function ElapsedSeconds(lastUpdateTime: int, now: int): real
  {
    (now - lastUpdateTime) as real / 1000.0
  }

  // ---------------------------------------------------------------------
  // The effect of each handler on one room
  // ---------------------------------------------------------------------

  /** `togglePlay` on an existing room. */
  function Toggled(r: Room, now: int): Room
  {
    if !r.isPlaying then r.(isPlaying := true, lastUpdateTime := now)
    else r.(isPlaying := false, currentTime := r.currentTime + ElapsedSeconds(r.lastUpdateTime, now))
  }

  /** `seek` on an existing room. */
  function Seeked(r: Room, time: real, now: int): Room
  {
    r.(currentTime := time, lastUpdateTime := now)
  }

  /** `addTrack` on an existing room. */
  function WithTrack(r: Room, track: Track, now: int): Room
  {
    var pushed := r.(playlist := r.playlist + [track]);
    if pushed.currentTrack.None? && |pushed.playlist| == 1
    then pushed.(currentTrack := Some(pushed.playlist[0]), currentTime := 0.0, lastUpdateTime := now)
    else pushed
  }

  /** The position `findIndex` finds the current track at, or -1. */
  function CurrentIndex(r: Room): int
    ensures -1 <= CurrentIndex(r) < |r.playlist|
  {
    FindIndex(r.playlist, CurrentKey(r.currentTrack))
  }

  /** `nextTrack` on an existing room with a non-empty playlist. */
  function Advanced(r: Room, now: int): Room
    requires r.playlist != []
  {
    var next := (CurrentIndex(r) + 1) % |r.playlist|;
    r.(currentTrack := Some(r.playlist[next]), currentTime := 0.0, lastUpdateTime := now)
  }

  /** `prevTrack` on an existing room with a non-empty playlist. Dafny's `%`
      and JavaScript's differ only when the left operand is negative, which
      here happens only for a one-track playlist whose current track is not
      found: JavaScript's -0 and Dafny's 0 both select the first track. */
  function Retreated(r: Room, now: int): Room
    requires r.playlist != []
  {
    var prev := (CurrentIndex(r) - 1 + |r.playlist|) % |r.playlist|;
    r.(currentTrack := Some(r.playlist[prev]), currentTime := 0.0, lastUpdateTime := now)
  }

  // ---------------------------------------------------------------------
  // The room invariant and what each handler preserves
  // ---------------------------------------------------------------------

  /** A current track exists exactly when the playlist is non-empty, and it
      is one of the playlist's entries. */
  ghost predicate WellFormed(r: Room)
  {
    && (r.currentTrack.Some? <==> r.playlist != [])
    && (r.currentTrack.Some? ==> r.currentTrack.value in r.playlist)
  }

  /** Every handler keeps the room invariant; a freshly joined room has it. */
  lemma HandlersPreserveWellFormed(r: Room, t: Track, time: real, now: int)
    requires WellFormed(r)
    ensures WellFormed(NewRoom(now))
    ensures WellFormed(Toggled(r, now))
    ensures WellFormed(Seeked(r, time, now))
    ensures WellFormed(WithTrack(r, t, now))
    ensures r.playlist != [] ==> WellFormed(Advanced(r, now)) && WellFormed(Retreated(r, now))
  {
  }

  // ---------------------------------------------------------------------
  // Properties of the playback clock (togglePlay, seek)
  // ---------------------------------------------------------------------

  /** `togglePlay` flips `isPlaying` and never touches the playlist or the
      current track. Starting re-anchors the clock at `now` and keeps the
      position; pausing adds the seconds elapsed since the anchor. */
  lemma TogglePlayEffect(r: Room, now: int)
    ensures var r' := Toggled(r, now);
            && r'.isPlaying == !r.isPlaying
            && r'.playlist == r.playlist && r'.currentTrack == r.currentTrack
            && (r'.isPlaying ==> r'.currentTime == r.currentTime && r'.lastUpdateTime == now)
            && (!r'.isPlaying ==> r'.currentTime == r.currentTime + ElapsedSeconds(r.lastUpdateTime, now))
  {
  }

  /** With a clock that does not run backwards, pausing never moves the
      position back. */
  lemma PauseNeverRewinds(r: Room, now: int)
    requires r.isPlaying && now >= r.lastUpdateTime
    ensures !Toggled(r, now).isPlaying
    ensures Toggled(r, now).currentTime >= r.currentTime
  {
  }

  /** Playing and pausing again at the same instant from a paused room gives
      back the same room, re-anchored at `now`. */
  lemma ToggleTwiceRestores(r: Room, now: int)
    requires !r.isPlaying
    ensures Toggled(Toggled(r, now), now) == r.(lastUpdateTime := now)
  {
    var playing := Toggled(r, now);
    assert ElapsedSeconds(playing.lastUpdateTime, now) == 0.0;
  }

  /** `seek` moves the position to `time` unconditionally (no range check)
      and changes nothing else but the anchor. */
  lemma SeekEffect(r: Room, time: real, now: int)
    ensures var r' := Seeked(r, time, now);
            && r'.currentTime == time && r'.lastUpdateTime == now
            && r'.isPlaying == r.isPlaying && r'.playlist == r.playlist
            && r'.currentTrack == r.currentTrack
  {
  }

  // ---------------------------------------------------------------------
  // Properties of addTrack
  // ---------------------------------------------------------------------

  /** `addTrack` appends exactly one entry at the end. The track becomes
      current (at position 0, anchored at `now`) only when there was no
      current track and it is now the only entry; otherwise the current
      track and the clock are untouched. */
  lemma AddTrackEffect(r: Room, t: Track, now: int)
    ensures var r' := WithTrack(r, t, now);
            && |r'.playlist| == |r.playlist| + 1
            && r'.playlist[..|r.playlist|] == r.playlist
            && r'.playlist[|r.playlist|] == t
            && r'.isPlaying == r.isPlaying
            && (r.currentTrack.None? && r.playlist == [] ==>
                  r'.currentTrack == Some(t) && r'.currentTime == 0.0 && r'.lastUpdateTime == now)
            && (!(r.currentTrack.None? && r.playlist == []) ==>
                  r'.currentTrack == r.currentTrack && r'.currentTime == r.currentTime
                  && r'.lastUpdateTime == r.lastUpdateTime)
  {
    var r' := WithTrack(r, t, now);
    assert r'.playlist[..|r.playlist|] == r.playlist;
  }

  /** In a well-formed room, the first track added becomes current and no
      later addition changes the current track. */
  lemma FirstAddBecomesCurrent(r: Room, t: Track, now: int)
    requires WellFormed(r)
    ensures WithTrack(r, t, now).currentTrack == if r.playlist == [] then Some(t) else r.currentTrack
  {
  }

  // ---------------------------------------------------------------------
  // Properties of nextTrack / prevTrack: the playlist is a ring
  // ---------------------------------------------------------------------

  /** No two playlist entries compare equal under `===` on their ids. */
  ghost predicate DistinctIds(p: seq<Track>)
  {
    forall i, j :: 0 <= i < j < |p| ==> KeyOf(p[i]) != KeyOf(p[j])
  }

  /** With distinct ids, `findIndex` locates an entry at its own position. */
  lemma FindIndexOfEntry(p: seq<Track>, k: nat)
    requires DistinctIds(p) && k < |p|
    ensures FindIndex(p, KeyOf(p[k])) == k
  {
  }

  /** The index after `k` on a ring of `n` entries. */
  function Succ(k: nat, n: nat): nat
    requires k < n
  {
    if k + 1 == n then 0 else k + 1
  }

  /** The index before `k` on a ring of `n` entries. */
  function Pred(k: nat, n: nat): nat
    requires k < n
  {
    if k == 0 then n - 1 else k - 1
  }

  /** A value already on the ring is its own remainder. */
  lemma ModBelow(a: int, n: int)
    requires 0 <= a < n
    ensures a % n == a
  {
  }

  /** A value less than once round past the ring's end lies one ring
      length past its remainder. */
  lemma ModOnceRound(a: int, n: int)
    requires 0 < n <= a < 2 * n
    ensures a % n == a - n
  {
    var q, r := a / n, a % n;
    assert a == q * n + r && 0 <= r < n;
    assert q == 1;
  }

  /** The ring arithmetic of `nextTrack` and `prevTrack` on a found index. */
  lemma RingIndex(k: nat, n: nat)
    requires k < n
    ensures (k + 1) % n == Succ(k, n)
    ensures (k - 1 + n) % n == Pred(k, n)
  {
    if k + 1 < n {
      ModBelow(k + 1, n);
    } else {
      ModOnceRound(k + 1, n);
    }
    if k == 0 {
      ModBelow(n - 1, n);
    } else {
      ModOnceRound(k - 1 + n, n);
    }
  }

  /** From the entry at `k`, `nextTrack` moves to the next entry on the ring,
      keeps the playlist and the play state, and resets the position to 0
      anchored at `now`. */
  lemma NextEffect(r: Room, k: nat, now: int)
    requires DistinctIds(r.playlist) && k < |r.playlist|
    requires r.currentTrack == Some(r.playlist[k])
    ensures Advanced(r, now) ==
              r.(currentTrack := Some(r.playlist[Succ(k, |r.playlist|)]), currentTime := 0.0, lastUpdateTime := now)
  {
    FindIndexOfEntry(r.playlist, k);
    RingIndex(k, |r.playlist|);
  }

  /** From the entry at `k`, `prevTrack` moves to the entry before it on the
      ring, keeps the playlist and the play state, and resets the position
      to 0 anchored at `now`. */
  lemma PrevEffect(r: Room, k: nat, now: int)
    requires DistinctIds(r.playlist) && k < |r.playlist|
    requires r.currentTrack == Some(r.playlist[k])
    ensures Retreated(r, now) ==
              r.(currentTrack := Some(r.playlist[Pred(k, |r.playlist|)]), currentTime := 0.0, lastUpdateTime := now)
  {
    FindIndexOfEntry(r.playlist, k);
    RingIndex(k, |r.playlist|);
  }

  /** With distinct ids and the current track on the playlist, `prevTrack`
      undoes `nextTrack` and `nextTrack` undoes `prevTrack`. */
  lemma PrevUndoesNext(r: Room, k: nat, now1: int, now2: int)
    requires DistinctIds(r.playlist) && k < |r.playlist|
    requires r.currentTrack == Some(r.playlist[k])
    ensures Retreated(Advanced(r, now1), now2).currentTrack == r.currentTrack
    ensures Advanced(Retreated(r, now1), now2).currentTrack == r.currentTrack
  {
    var n := |r.playlist|;
    NextEffect(r, k, now1);
    PrevEffect(Advanced(r, now1), Succ(k, n), now2);
    PrevEffect(r, k, now1);
    NextEffect(Retreated(r, now1), Pred(k, n), now2);
  }

  /** `nextTrack` applied `m` times. */
  function AdvancedTimes(r: Room, m: nat, now: int): (r': Room)
    requires r.playlist != []
    ensures r'.playlist == r.playlist
  {
    if m == 0 then r else Advanced(AdvancedTimes(r, m - 1, now), now)
  }

  /** The index `m <= n` places after `k` on a ring of `n` entries. */
  function Around(k: nat, m: nat, n: nat): nat
    requires k < n && m <= n
  {
    if k + m < n then k + m else k + m - n
  }

  /** From the entry at `k`, `m <= n` calls of `nextTrack` reach the entry
      `m` places further round the ring. */
  lemma {:induction false} AdvanceAround(r: Room, k: nat, m: nat, now: int)
    requires DistinctIds(r.playlist) && k < |r.playlist| && m <= |r.playlist|
    requires r.currentTrack == Some(r.playlist[k])
    ensures AdvancedTimes(r, m, now).currentTrack == Some(r.playlist[Around(k, m, |r.playlist|)])
  {
    var n := |r.playlist|;
    if m > 0 {
      var before := AdvancedTimes(r, m - 1, now);
      var at := Around(k, m - 1, n);
      assert before.playlist == r.playlist && before.currentTrack == Some(r.playlist[at]) by {
        AdvanceAround(r, k, m - 1, now);
      }
      assert Advanced(before, now).currentTrack == Some(r.playlist[Succ(at, n)]) by {
        NextEffect(before, at, now);
      }
      assert Succ(at, n) == Around(k, m, n);
      assert AdvancedTimes(r, m, now) == Advanced(before, now);
    }
  }

  /** Calling `nextTrack` as many times as there are entries returns to the
      track that was current. */
  lemma AdvanceFullCircle(r: Room, k: nat, now: int)
    requires DistinctIds(r.playlist) && k < |r.playlist|
    requires r.currentTrack == Some(r.playlist[k])
    ensures AdvancedTimes(r, |r.playlist|, now).currentTrack == r.currentTrack
  {
    AdvanceAround(r, k, |r.playlist|, now);
  }

  /** When the current track is not found on the playlist (or there is
      none), `nextTrack` selects the first entry and `prevTrack` the entry
      two before the end (the only entry for a one-track playlist). */
  lemma SkipWhenNotFound(r: Room, now: int)
    requires r.playlist != [] && CurrentIndex(r) == -1
    ensures Advanced(r, now).currentTrack == Some(r.playlist[0])
    ensures var n := |r.playlist|;
            Retreated(r, now).currentTrack == Some(r.playlist[if n == 1 then 0 else n - 2])
  {
  }

  // ---------------------------------------------------------------------
  // The Socket.IO side
  // ---------------------------------------------------------------------

  /** Who an emit goes to: the calling socket (`socket.emit`), every socket
      in the room (`io.to(roomId).emit`), or every socket in the room but
      the caller (`socket.to(roomId).emit`). */
  datatype Audience = Sender | Everyone(roomId: RoomId) | Others(roomId: RoomId)

  datatype Event =
    | RoomState(room: Room)
    | PlaybackUpdate(isPlaying: bool, currentTime: real)
    | SeekUpdate(time: real)
    | PlaylistUpdate(playlist: seq<Track>)
    | NowPlaying(track: Track)
    | VolumeUpdate(volume: real)

  datatype Emit = Emit(to: Audience, event: Event)

  /** The module-level `rooms` object together with the log of everything
      the handlers emit. */
  class Server {
    var rooms: map<RoomId, Room>
    var emitted: seq<Emit>

    ghost predicate Valid()
      reads this
    {
      forall id :: id in rooms ==> WellFormed(rooms[id])
    }

    constructor ()
      ensures Valid()
      ensures rooms == map[] && emitted == []
    {
      rooms := map[];
      emitted := [];
    }

    /** `joinRoom`: creates the room on first use, leaves an existing one
        untouched, and sends the room's state to the caller only. */
    method JoinRoom(roomId: RoomId, now: int)
      requires Valid()
      modifies this
      ensures Valid()
      ensures roomId in old(rooms) ==> rooms == old(rooms)
      ensures roomId !in old(rooms) ==> rooms == old(rooms)[roomId := NewRoom(now)]
      ensures roomId in rooms
      ensures emitted == old(emitted) + [Emit(Sender, RoomState(rooms[roomId]))]
    {
      if roomId !in rooms {
        rooms := rooms[roomId := Room(None, [], false, 0.0, now)];
      }
      emitted := emitted + [Emit(Sender, RoomState(rooms[roomId]))];
    }

    /** `togglePlay`: a no-op for an unknown room; otherwise flips the play
        state and broadcasts the new state and position. */
    method TogglePlay(roomId: RoomId, now: int)
      requires Valid()
      modifies this
      ensures Valid()
      ensures roomId !in old(rooms) ==> rooms == old(rooms) && emitted == old(emitted)
      ensures roomId in old(rooms) ==>
                && rooms == old(rooms)[roomId := Toggled(old(rooms)[roomId], now)]
                && emitted == old(emitted) + [Emit(Everyone(roomId),
                     PlaybackUpdate(rooms[roomId].isPlaying, rooms[roomId].currentTime))]
    {
      if roomId in rooms {
        var room := rooms[roomId];
        room := room.(isPlaying := !room.isPlaying);
        if room.isPlaying {
          room := room.(lastUpdateTime := now);
        } else {
          room := room.(currentTime := room.currentTime + (now - room.lastUpdateTime) as real / 1000.0);
        }
        HandlersPreserveWellFormed(rooms[roomId], Track(None, "", "", ""), 0.0, now);
        rooms := rooms[roomId := room];
        emitted := emitted + [Emit(Everyone(roomId), PlaybackUpdate(room.isPlaying, room.currentTime))];
      }
    }

    /** `seek`: a no-op for an unknown room; otherwise moves the position
        and broadcasts the requested time. */
    method Seek(roomId: RoomId, time: real, now: int)
      requires Valid()
      modifies this
      ensures Valid()
      ensures roomId !in old(rooms) ==> rooms == old(rooms) && emitted == old(emitted)
      ensures roomId in old(rooms) ==>
                && rooms == old(rooms)[roomId := Seeked(old(rooms)[roomId], time, now)]
                && emitted == old(emitted) + [Emit(Everyone(roomId), SeekUpdate(time))]
    {
      if roomId in rooms {
        var room := rooms[roomId];
        room := room.(currentTime := time);
        room := room.(lastUpdateTime := now);
        rooms := rooms[roomId := room];
        emitted := emitted + [Emit(Everyone(roomId), SeekUpdate(time))];
      }
    }

    /** `addTrack`: a no-op for an unknown room; otherwise appends the track,
        makes it current if it is the first, always broadcasts the playlist,
        and announces the current track only when it has no id. */
    method AddTrack(roomId: RoomId, track: Track, now: int)
      requires Valid()
      modifies this
      ensures Valid()
      ensures roomId !in old(rooms) ==> rooms == old(rooms) && emitted == old(emitted)
      ensures roomId in old(rooms) ==>
                && rooms == old(rooms)[roomId := WithTrack(old(rooms)[roomId], track, now)]
                && var r := rooms[roomId];
                   emitted == old(emitted) + [Emit(Everyone(roomId), PlaylistUpdate(r.playlist))]
                     + (if r.currentTrack.Some? && HasFalsyId(r.currentTrack.value)
                        then [Emit(Everyone(roomId), NowPlaying(r.currentTrack.value))] else [])
    {
      if roomId in rooms {
        var room := rooms[roomId];
        room := room.(playlist := room.playlist + [track]);
        if room.currentTrack.None? && |room.playlist| == 1 {
          room := room.(currentTrack := Some(room.playlist[0]));
          room := room.(currentTime := 0.0);
          room := room.(lastUpdateTime := now);
        }
        HandlersPreserveWellFormed(rooms[roomId], track, 0.0, now);
        rooms := rooms[roomId := room];
        emitted := emitted + [Emit(Everyone(roomId), PlaylistUpdate(room.playlist))];
        if room.currentTrack.Some? && (room.currentTrack.value.id.None? || room.currentTrack.value.id.value == "") {
          emitted := emitted + [Emit(Everyone(roomId), NowPlaying(room.currentTrack.value))];
        }
      }
    }

    /** `nextTrack`: a no-op for an unknown room or an empty playlist;
        otherwise moves to the entry after the current one (wrapping) and
        broadcasts the new track and the play state at position 0. */
    method NextTrack(roomId: RoomId, now: int)
      requires Valid()
      modifies this
      ensures Valid()
      ensures roomId !in old(rooms) || old(rooms)[roomId].playlist == [] ==>
                rooms == old(rooms) && emitted == old(emitted)
      ensures roomId in old(rooms) && old(rooms)[roomId].playlist != [] ==>
                && rooms == old(rooms)[roomId := Advanced(old(rooms)[roomId], now)]
                && rooms[roomId].currentTrack.Some?
                && emitted == old(emitted) + [Emit(Everyone(roomId), NowPlaying(rooms[roomId].currentTrack.value)),
                                              Emit(Everyone(roomId), PlaybackUpdate(rooms[roomId].isPlaying, 0.0))]
    {
      if roomId in rooms && |rooms[roomId].playlist| > 0 {
        var room := rooms[roomId];
        var currentIndex := FindIndex(room.playlist, CurrentKey(room.currentTrack));
        var nextIndex := (currentIndex + 1) % |room.playlist|;
        room := room.(currentTrack := Some(room.playlist[nextIndex]));
        room := room.(currentTime := 0.0);
        room := room.(lastUpdateTime := now);
        HandlersPreserveWellFormed(rooms[roomId], Track(None, "", "", ""), 0.0, now);
        rooms := rooms[roomId := room];
        emitted := emitted + [Emit(Everyone(roomId), NowPlaying(room.currentTrack.value))];
        emitted := emitted + [Emit(Everyone(roomId), PlaybackUpdate(room.isPlaying, 0.0))];
      }
    }

    /** `prevTrack`: as `nextTrack`, moving to the entry before the current
        one. */
    method PrevTrack(roomId: RoomId, now: int)
      requires Valid()
      modifies this
      ensures Valid()
      ensures roomId !in old(rooms) || old(rooms)[roomId].playlist == [] ==>
                rooms == old(rooms) && emitted == old(emitted)
      ensures roomId in old(rooms) && old(rooms)[roomId].playlist != [] ==>
                && rooms == old(rooms)[roomId := Retreated(old(rooms)[roomId], now)]
                && rooms[roomId].currentTrack.Some?
                && emitted == old(emitted) + [Emit(Everyone(roomId), NowPlaying(rooms[roomId].currentTrack.value)),
                                              Emit(Everyone(roomId), PlaybackUpdate(rooms[roomId].isPlaying, 0.0))]
    {
      if roomId in rooms && |rooms[roomId].playlist| > 0 {
        var room := rooms[roomId];
        var currentIndex := FindIndex(room.playlist, CurrentKey(room.currentTrack));
        var prevIndex := (currentIndex - 1 + |room.playlist|) % |room.playlist|;
        room := room.(currentTrack := Some(room.playlist[prevIndex]));
        room := room.(currentTime := 0.0);
        room := room.(lastUpdateTime := now);
        HandlersPreserveWellFormed(rooms[roomId], Track(None, "", "", ""), 0.0, now);
        rooms := rooms[roomId := room];
        emitted := emitted + [Emit(Everyone(roomId), NowPlaying(room.currentTrack.value))];
        emitted := emitted + [Emit(Everyone(roomId), PlaybackUpdate(room.isPlaying, 0.0))];
      }
    }

    /** `volumeChange`: relays the volume to the other sockets of the room;
        no room state is read or written, and the room need not exist. */
    method VolumeChange(roomId: RoomId, volume: real)
      modifies this
      ensures rooms == old(rooms)
      ensures emitted == old(emitted) + [Emit(Others(roomId), VolumeUpdate(volume))]
    {
      emitted := emitted + [Emit(Others(roomId), VolumeUpdate(volume))];
    }

    /** `disconnect`: only logs. Rooms are never evicted, so the state of a
        room outlives all of its listeners. */
    method Disconnect()
      modifies this
      ensures rooms == old(rooms) && emitted == old(emitted)
    {
    }
  }
}
