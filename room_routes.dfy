/** The decision rules of the REST handlers in routes/rooms.js. A loaded
    room document is a `RoomDoc` object that the handler changes in place
    before saving it; the lookups the handlers make (`User.findOne`,
    `Room.findById`, `Track.findById`) are parameters: a user or track that
    is not found is `None`, a room that is not found is `null`. */
module RoomRoutes {
  import opened Wrappers
  import opened Js

  type UserId = string
  type TrackId = string
  type RoomId = string

  /** One playlist entry of a stored room (models/Room.js:17-30). */
  datatype Entry = Entry(track: TrackId, addedBy: UserId, addedAt: int)

  /** The JSON body a handler answers with. */
  datatype Body = ErrorBody(error: string) | MessageBody(message: string) | RoomBody

  datatype Reply = Reply(status: nat, body: Body)

  /** A stored room document, with the schema defaults of models/Room.js. */
  class RoomDoc {
    var name: string
    var createdBy: UserId
    var playlist: seq<Entry>
    var currentTrackIndex: int
    var isPlaying: bool
    var currentTime: real

    constructor (name: string, createdBy: UserId)
      ensures this.name == name && this.createdBy == createdBy
      ensures playlist == [] && currentTrackIndex == 0 && !isPlaying && currentTime == 0.0
    {
      this.name := name;
      this.createdBy := createdBy;
      playlist := [];
      currentTrackIndex := 0;
      isPlaying := false;
      currentTime := 0.0;
    }
  }

  // ---------------------------------------------------------------------
  // Removing an entry: `playlist.splice(trackIndex, 1)` and the index clamp
  // ---------------------------------------------------------------------

  /** `s.splice(i, 1)`: the sequence without its entry at `i`. Earlier
      entries keep their positions, later ones move down by one, and exactly
      one occurrence of the removed entry is gone. */
  function RemoveAt<T>(s: seq<T>, i: nat): (r: seq<T>)
    requires i < |s|
    ensures |r| == |s| - 1
    ensures forall j :: 0 <= j < i ==> r[j] == s[j]
    ensures forall j :: i <= j < |r| ==> r[j] == s[j + 1]
    ensures multiset(r) + multiset{s[i]} == multiset(s)
  {
    assert s == s[..i] + [s[i]] + s[i + 1..];
    s[..i] + s[i + 1..]
  }

  /** The `currentTrackIndex` update after a removal: an index past the end
      of the shortened playlist moves to its last entry (0 when it is
      empty); any other index is kept. */
  function ClampIndex(currentTrackIndex: int, newLength: nat): int
  {
    if currentTrackIndex >= newLength then if newLength - 1 > 0 then newLength - 1 else 0
    else currentTrackIndex
  }

  /** The clamp changes the index only when it was at or past the new end,
      never raises it, and brings an index that was valid before the removal
      back within the shortened playlist (or to 0 when it is empty). */
  lemma ClampAfterRemove(currentTrackIndex: int, oldLength: nat)
    requires oldLength >= 1
    ensures currentTrackIndex < oldLength - 1 ==> ClampIndex(currentTrackIndex, oldLength - 1) == currentTrackIndex
    ensures currentTrackIndex >= oldLength - 1 ==>
              ClampIndex(currentTrackIndex, oldLength - 1) == if oldLength >= 2 then oldLength - 2 else 0
    ensures ClampIndex(currentTrackIndex, oldLength - 1) <= currentTrackIndex || currentTrackIndex < 0
    ensures 0 <= currentTrackIndex < oldLength ==>
              var c' := ClampIndex(currentTrackIndex, oldLength - 1);
              0 <= c' && (c' < oldLength - 1 || c' == 0)
  {
  }

  /** The index is not decremented when an earlier entry is removed, so the
      kept index then designates the entry that followed the old current
      one. */
  lemma RemoveBeforeCurrentShiftsSelection<T>(p: seq<T>, i: nat, c: nat)
    requires i < c < |p| - 1
    ensures ClampIndex(c, |p| - 1) == c
    ensures RemoveAt(p, i)[c] == p[c + 1]
  {
  }

  /** DELETE /:roomId/playlist/:trackIndex. `trackIndex` is the decimal
      path parameter, which the comparison with the playlist length turns
      into a number. */
  method RemoveFromPlaylist(user: Option<UserId>, room: RoomDoc?, trackIndex: nat) returns (reply: Reply)
    modifies room
    ensures user.None? ==> reply == Reply(404, ErrorBody("User not found"))
    ensures user.Some? && room == null ==> reply == Reply(404, ErrorBody("Room not found"))
    ensures user.Some? && room != null && trackIndex >= |old(room.playlist)| ==>
              reply == Reply(404, ErrorBody("Track not found in playlist"))
    ensures user.Some? && room != null && trackIndex < |old(room.playlist)|
            && old(room.playlist)[trackIndex].addedBy != user.value && old(room.createdBy) != user.value ==>
              reply == Reply(403, ErrorBody("Not authorized to remove this track"))
    ensures reply.status != 200 && room != null ==> unchanged(room)
    ensures reply.status == 200 <==>
              && user.Some? && room != null && trackIndex < |old(room.playlist)|
              && (old(room.playlist)[trackIndex].addedBy == user.value || old(room.createdBy) == user.value)
    ensures reply.status == 200 ==>
              && room != null && trackIndex < |old(room.playlist)|
              && reply == Reply(200, MessageBody("Track removed from playlist"))
              && room.playlist == RemoveAt(old(room.playlist), trackIndex)
              && room.currentTrackIndex == ClampIndex(old(room.currentTrackIndex), |room.playlist|)
              && room.name == old(room.name) && room.createdBy == old(room.createdBy)
              && room.isPlaying == old(room.isPlaying) && room.currentTime == old(room.currentTime)
  {
    if user.None? {
      return Reply(404, ErrorBody("User not found"));
    }
    if room == null {
      return Reply(404, ErrorBody("Room not found"));
    }
    if trackIndex >= |room.playlist| {
      return Reply(404, ErrorBody("Track not found in playlist"));
    }
    var playlistItem := room.playlist[trackIndex];
    if playlistItem.addedBy != user.value && room.createdBy != user.value {
      return Reply(403, ErrorBody("Not authorized to remove this track"));
    }
    room.playlist := room.playlist[..trackIndex] + room.playlist[trackIndex + 1..];
    if room.currentTrackIndex >= |room.playlist| {
      room.currentTrackIndex := if |room.playlist| - 1 > 0 then |room.playlist| - 1 else 0;
    }
    reply := Reply(200, MessageBody("Track removed from playlist"));
  }

  // ---------------------------------------------------------------------
  // Adding an entry
  // ---------------------------------------------------------------------

  /** POST /:id/playlist: appends one entry for the track, credited to the
      requesting user and stamped with the schema's `addedAt` default. */
  method AddToPlaylist(user: Option<UserId>, room: RoomDoc?, track: Option<TrackId>, now: int) returns (reply: Reply)
    modifies room
    ensures user.None? ==> reply == Reply(404, ErrorBody("User not found"))
    ensures user.Some? && room == null ==> reply == Reply(404, ErrorBody("Room not found"))
    ensures user.Some? && room != null && track.None? ==> reply == Reply(404, ErrorBody("Track not found"))
    ensures reply.status != 200 && room != null ==> unchanged(room)
    ensures reply.status == 200 <==> user.Some? && room != null && track.Some?
    ensures reply.status == 200 ==>
              && user.Some? && room != null && track.Some?
              && reply == Reply(200, RoomBody)
              && room.playlist == old(room.playlist) + [Entry(track.value, user.value, now)]
              && room.name == old(room.name) && room.createdBy == old(room.createdBy)
              && room.currentTrackIndex == old(room.currentTrackIndex)
              && room.isPlaying == old(room.isPlaying) && room.currentTime == old(room.currentTime)
  {
    if user.None? {
      return Reply(404, ErrorBody("User not found"));
    }
    if room == null {
      return Reply(404, ErrorBody("Room not found"));
    }
    if track.None? {
      return Reply(404, ErrorBody("Track not found"));
    }
    room.playlist := room.playlist + [Entry(track.value, user.value, now)];
    reply := Reply(200, RoomBody);
  }

  // ---------------------------------------------------------------------
  // Partial state update
  // ---------------------------------------------------------------------

  /** PUT /:id/state: each of the three fields is overwritten only when the
      request body carries it (`!== undefined`); the others keep their
      values. */
  method UpdateState(room: RoomDoc?, currentTrackIndex: Option<int>, isPlaying: Option<bool>, currentTime: Option<real>)
    returns (reply: Reply)
    modifies room
    ensures room == null ==> reply == Reply(404, ErrorBody("Room not found"))
    ensures room != null ==>
              && reply == Reply(200, RoomBody)
              && room.currentTrackIndex == (if currentTrackIndex.Some? then currentTrackIndex.value else old(room.currentTrackIndex))
              && room.isPlaying == (if isPlaying.Some? then isPlaying.value else old(room.isPlaying))
              && room.currentTime == (if currentTime.Some? then currentTime.value else old(room.currentTime))
              && room.name == old(room.name) && room.createdBy == old(room.createdBy)
              && room.playlist == old(room.playlist)
  {
    if room == null {
      return Reply(404, ErrorBody("Room not found"));
    }
    if currentTrackIndex.Some? {
      room.currentTrackIndex := currentTrackIndex.value;
    }
    if isPlaying.Some? {
      room.isPlaying := isPlaying.value;
    }
    if currentTime.Some? {
      room.currentTime := currentTime.value;
    }
    reply := Reply(200, RoomBody);
  }

  // ---------------------------------------------------------------------
  // Creating a room
  // ---------------------------------------------------------------------

  /** The fields of a new room document that the schema knows: `creator`
      is not a path of the schema, so a document built with it has no
      `createdBy`. */
  datatype Draft = Draft(name: string, createdBy: Option<UserId>)

  /** The schema's required-field validation on save (models/Room.js:4-16):
      a non-empty `name` and a `createdBy`. */
  predicate PassesValidation(d: Draft)
  {
    d.name != "" && d.createdBy.Some?
  }

  /** `room.save()` after the duplicate check: a document that passes
      validation is stored and returned with 201; a validation error is
      caught and answered 500. */
  function Save(d: Draft): (reply: Reply)
    ensures reply.status == 201 <==> PassesValidation(d)
    ensures !PassesValidation(d) ==> reply == Reply(500, ErrorBody("Failed to create room"))
  {
    if PassesValidation(d) then Reply(201, RoomBody)
    else Reply(500, ErrorBody("Failed to create room"))
  }

  /** POST / as written: the user must exist and the name must be new;
      the document is then built with `creator`, which fails validation on
      save, so the handler answers 500. `existing` is the room
      `Room.findOne({ name })` found, if any. */
  function CreateRoom(user: Option<UserId>, existing: Option<RoomId>, name: string): (reply: Reply)
    ensures user.None? ==> reply == Reply(404, ErrorBody("User not found"))
    ensures user.Some? && existing.Some? ==> reply == Reply(400, ErrorBody("Room name already exists"))
    ensures reply.status != 201
  {
    if user.None? then Reply(404, ErrorBody("User not found"))
    else if existing.Some? then Reply(400, ErrorBody("Room name already exists"))
    else Save(Draft(name, None))
  }

  /** A request that should create a room: a known user, a new non-empty
      name. As written it is answered 500. */
  lemma CreateRoomRejectsValidRequest()
    ensures CreateRoom(Some("user-1"), None, "Lounge") == Reply(500, ErrorBody("Failed to create room"))
  {
  }

  /** POST / with the creator recorded under the schema's own field name:
      a known user and a new, non-empty name create the room (201); the
      duplicate-name check still rejects before anything is built. */
  function CreateRoomFixed(user: Option<UserId>, existing: Option<RoomId>, name: string): (reply: Reply)
    ensures user.None? ==> reply == Reply(404, ErrorBody("User not found"))
    ensures user.Some? && existing.Some? ==> reply == Reply(400, ErrorBody("Room name already exists"))
    ensures reply.status == 201 <==> user.Some? && existing.None? && name != ""
  {
    if user.None? then Reply(404, ErrorBody("User not found"))
    else if existing.Some? then Reply(400, ErrorBody("Room name already exists"))
    else Save(Draft(name, user))
  }

  // ---------------------------------------------------------------------
  // Routing of the remove request
  // ---------------------------------------------------------------------

  /** The model's router for the route `/:roomId/playlist/:trackIndex`
      mounted at `/api/rooms`: the two parameters, when the path has that
      shape. It is stricter than Express, which also accepts a trailing
      slash and matches the literal segments case-insensitively. */
  function MatchRemoveRoute(path: string): Option<(string, string)>
  {
    var parts := SplitSlash(path);
    if |parts| == 6 && parts[0] == "" && parts[1] == "api" && parts[2] == "rooms"
       && parts[3] != "" && parts[4] == "playlist" && parts[5] != ""
    then Some((parts[3], parts[5]))
    else None
  }

  /** The six pieces of a remove path joined with '/'. */
  lemma RemovePathJoin(roomId: string, trackIndex: string)
    ensures JoinSlash(["", "api", "rooms", roomId, "playlist", trackIndex])
              == "/api/rooms/" + roomId + "/playlist/" + trackIndex
  {
    var p := ["", "api", "rooms", roomId, "playlist", trackIndex];
    assert p[1..] == ["api", "rooms", roomId, "playlist", trackIndex];
    assert p[1..][1..] == ["rooms", roomId, "playlist", trackIndex];
    assert p[1..][1..][1..] == [roomId, "playlist", trackIndex];
    assert p[1..][1..][1..][1..] == ["playlist", trackIndex];
    assert p[1..][1..][1..][1..][1..] == [trackIndex];
    assert JoinSlash(["playlist", trackIndex]) == "playlist/" + trackIndex;
    assert JoinSlash([roomId, "playlist", trackIndex]) == roomId + "/playlist/" + trackIndex;
    assert JoinSlash(["rooms", roomId, "playlist", trackIndex]) == "rooms/" + roomId + "/playlist/" + trackIndex;
    assert JoinSlash(["api", "rooms", roomId, "playlist", trackIndex]) == "api/rooms/" + roomId + "/playlist/" + trackIndex;
  }

  /** The route matches exactly the paths `/api/rooms/<roomId>/playlist/<trackIndex>`
      whose two parameters are non-empty and hold no slash, and it yields
      those two parameters. */
  lemma MatchRemoveRouteExactly(path: string, roomId: string, trackIndex: string)
    ensures MatchRemoveRoute(path) == Some((roomId, trackIndex)) <==>
              && roomId != "" && NoSlash(roomId) && trackIndex != "" && NoSlash(trackIndex)
              && path == "/api/rooms/" + roomId + "/playlist/" + trackIndex
  {
    var p := ["", "api", "rooms", roomId, "playlist", trackIndex];
    RemovePathJoin(roomId, trackIndex);
    if MatchRemoveRoute(path) == Some((roomId, trackIndex)) {
      JoinSplit(path);
      assert SplitSlash(path) == p;
      assert NoSlash(p[3]) && NoSlash(p[5]);
    }
    if roomId != "" && NoSlash(roomId) && trackIndex != "" && NoSlash(trackIndex)
       && path == "/api/rooms/" + roomId + "/playlist/" + trackIndex {
      assert forall k :: 0 <= k < |p| ==> NoSlash(p[k]);
      SplitJoin(p);
    }
  }
}
