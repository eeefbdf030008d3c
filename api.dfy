/** The request helpers of public/js/api.js: the endpoint path builders,
    the URL, headers and options `fetchAPI` sends, the way it turns a
    response into a result or an error, and its copy of `formatTime`. The
    auth token, the fetched response and its parsed body are parameters. */
module Api {
  import opened Wrappers
  import opened Js
  import Utils
  import RoomRoutes

  /** `API_BASE_URL` */
  const BaseUrl: string := "/api"

  // ---------------------------------------------------------------------
  // API_ENDPOINTS builders
  // ---------------------------------------------------------------------

  /** `tracks.get(id)` and `tracks.delete(id)` */
  function TrackPath(id: string): string
  {
    "/tracks/" + id
  }

  /** `tracks.play(id)` */
  function TrackPlayPath(id: string): string
  {
    "/tracks/" + id + "/play"
  }

  /** `rooms.get(id)` */
  function RoomPath(id: string): string
  {
    "/rooms/" + id
  }

  /** `rooms.addTrack(id)` */
  function AddTrackPath(id: string): string
  {
    "/rooms/" + id + "/playlist"
  }

  /** `rooms.removeTrack(roomId, trackIndex)`; the index is rendered in
      decimal by the template literal. */
  function RemoveTrackPath(roomId: string, trackIndex: nat): string
  {
    "/rooms/" + roomId + "/playlist/" + Decimal(trackIndex)
  }

  /** `rooms.updateState(id)` */
  function UpdateStatePath(id: string): string
  {
    "/rooms/" + id + "/state"
  }

  /** The URL `fetchAPI` requests: the base followed by the endpoint. */
  function Url(endpoint: string): (u: string)
    ensures StartsWith(u, BaseUrl) && u[|BaseUrl|..] == endpoint
  {
    BaseUrl + endpoint
  }

  /** For an id without slashes, the track URLs split into the base, the
      collection, the id and the sub-resource, in that order. */
  lemma TrackUrlSegments(id: string)
    requires NoSlash(id)
    ensures SplitSlash(Url(TrackPath(id))) == ["", "api", "tracks", id]
    ensures SplitSlash(Url(TrackPlayPath(id))) == ["", "api", "tracks", id, "play"]
  {
    var get := ["", "api", "tracks", id];
    assert get[1..] == ["api", "tracks", id];
    assert get[1..][1..] == ["tracks", id];
    assert get[1..][1..][1..] == [id];
    assert JoinSlash(["tracks", id]) == "tracks/" + id;
    assert JoinSlash(["api", "tracks", id]) == "api/tracks/" + id;
    assert JoinSlash(get) == Url(TrackPath(id));
    SplitJoin(get);

    var play := ["", "api", "tracks", id, "play"];
    assert play[1..] == ["api", "tracks", id, "play"];
    assert play[1..][1..] == ["tracks", id, "play"];
    assert play[1..][1..][1..] == [id, "play"];
    assert play[1..][1..][1..][1..] == ["play"];
    assert JoinSlash([id, "play"]) == id + "/play";
    assert JoinSlash(["tracks", id, "play"]) == "tracks/" + id + "/play";
    assert JoinSlash(["api", "tracks", id, "play"]) == "api/tracks/" + id + "/play";
    assert JoinSlash(play) == Url(TrackPlayPath(id));
    SplitJoin(play);
  }

  /** For an id without slashes, the room URLs split into the base, the
      collection, the id and the sub-resource, in that order; the remove
      URL ends with the index's decimal text. */
  lemma RoomUrlSegments(id: string, trackIndex: nat)
    requires NoSlash(id)
    ensures SplitSlash(Url(RoomPath(id))) == ["", "api", "rooms", id]
    ensures SplitSlash(Url(AddTrackPath(id))) == ["", "api", "rooms", id, "playlist"]
    ensures SplitSlash(Url(RemoveTrackPath(id, trackIndex))) == ["", "api", "rooms", id, "playlist", Decimal(trackIndex)]
    ensures SplitSlash(Url(UpdateStatePath(id))) == ["", "api", "rooms", id, "state"]
  {
    RoomPathSegments(id);
    RoomSubresourceSegments(id, "playlist");
    assert Url(AddTrackPath(id)) == "/api" + ("/rooms/" + id + "/" + "playlist");
    RoomSubresourceSegments(id, "state");
    assert Url(UpdateStatePath(id)) == "/api" + ("/rooms/" + id + "/" + "state");
    RemoveUrlSegments(id, trackIndex);
  }

  /** `/api/rooms/<id>` */
  lemma RoomPathSegments(id: string)
    requires NoSlash(id)
    ensures SplitSlash(Url(RoomPath(id))) == ["", "api", "rooms", id]
  {
    var room := ["", "api", "rooms", id];
    assert room[1..] == ["api", "rooms", id];
    assert room[1..][1..] == ["rooms", id];
    assert room[1..][1..][1..] == [id];
    assert JoinSlash(["rooms", id]) == "rooms/" + id;
    assert JoinSlash(["api", "rooms", id]) == "api/rooms/" + id;
    assert JoinSlash(room) == Url(RoomPath(id));
    SplitJoin(room);
  }

  /** `/api/rooms/<id>/playlist/<index>` */
  lemma RemoveUrlSegments(id: string, trackIndex: nat)
    requires NoSlash(id)
    ensures SplitSlash(Url(RemoveTrackPath(id, trackIndex))) == ["", "api", "rooms", id, "playlist", Decimal(trackIndex)]
  {
    var d := Decimal(trackIndex);
    DigitsHaveNoSlash(d);
    PlaylistEntrySegments(id, d);
    assert Url(RemoveTrackPath(id, trackIndex)) == "/api" + ("/rooms/" + id + "/playlist/" + d);
  }

  lemma DigitsHaveNoSlash(d: string)
    requires AllDigits(d)
    ensures NoSlash(d)
  {
  }

  /** `/api/rooms/<id>/playlist/<entry>` for a slash-free entry text. */
  lemma PlaylistEntrySegments(id: string, d: string)
    requires NoSlash(id) && NoSlash(d)
    ensures SplitSlash("/api" + ("/rooms/" + id + "/playlist/" + d)) == ["", "api", "rooms", id, "playlist", d]
  {
    var remove := ["", "api", "rooms", id, "playlist", d];
    assert remove[1..] == ["api", "rooms", id, "playlist", d];
    assert remove[1..][1..] == ["rooms", id, "playlist", d];
    assert remove[1..][1..][1..] == [id, "playlist", d];
    assert remove[1..][1..][1..][1..] == ["playlist", d];
    assert remove[1..][1..][1..][1..][1..] == [d];
    assert JoinSlash(["playlist", d]) == "playlist/" + d;
    assert JoinSlash([id, "playlist", d]) == id + "/playlist/" + d;
    assert JoinSlash(["rooms", id, "playlist", d]) == "rooms/" + id + "/playlist/" + d;
    assert JoinSlash(["api", "rooms", id, "playlist", d]) == "api/rooms/" + id + "/playlist/" + d;
    assert JoinSlash(remove) == "/api" + ("/rooms/" + id + "/playlist/" + d);
    SplitJoin(remove);
  }

  /** `/api/rooms/<id>/<sub>` for a slash-free sub-resource name. */
  lemma RoomSubresourceSegments(id: string, sub: string)
    requires NoSlash(id) && NoSlash(sub)
    ensures SplitSlash("/api" + ("/rooms/" + id + "/" + sub)) == ["", "api", "rooms", id, sub]
  {
    var p := ["", "api", "rooms", id, sub];
    assert p[1..] == ["api", "rooms", id, sub];
    assert p[1..][1..] == ["rooms", id, sub];
    assert p[1..][1..][1..] == [id, sub];
    assert p[1..][1..][1..][1..] == [sub];
    assert JoinSlash([id, sub]) == id + "/" + sub;
    assert JoinSlash(["rooms", id, sub]) == "rooms/" + id + "/" + sub;
    assert JoinSlash(["api", "rooms", id, sub]) == "api/rooms/" + id + "/" + sub;
    assert JoinSlash(p) == "/api" + ("/rooms/" + id + "/" + sub);
    SplitJoin(p);
  }

  /** The remove request the client builds reaches the server's DELETE
      route with the same room id, and the index parameter reads back as
      the index the client sent. The id is URL-safe, so the path carries
      no query, fragment, percent escape or dot segment for the browser or
      the router to rewrite. */
  lemma RemoveRouteRoundTrip(roomId: string, trackIndex: nat)
    requires UrlSafe(roomId)
    ensures RoomRoutes.MatchRemoveRoute(Url(RemoveTrackPath(roomId, trackIndex))) == Some((roomId, Decimal(trackIndex)))
    ensures DecimalValue(Decimal(trackIndex)) == trackIndex
  {
    RoomUrlSegments(roomId, trackIndex);
    DecimalRoundTrip(trackIndex);
  }

  /** Different rooms or indices give different remove URLs. */
  lemma RemoveTrackPathInjective(r1: string, i1: nat, r2: string, i2: nat)
    requires NoSlash(r1) && NoSlash(r2)
    requires RemoveTrackPath(r1, i1) == RemoveTrackPath(r2, i2)
    ensures r1 == r2 && i1 == i2
  {
    RoomUrlSegments(r1, i1);
    RoomUrlSegments(r2, i2);
    DecimalRoundTrip(i1);
    DecimalRoundTrip(i2);
  }

  // ---------------------------------------------------------------------
  // fetchAPI: headers and request options
  // ---------------------------------------------------------------------

  /** The token `getTokenSilently` gave is truthy. */
  predicate HasToken(token: Option<string>)
  {
    token.Some? && token.value != ""
  }

  /** The headers `fetchAPI` sends: `Content-Type: application/json` unless
      the caller's headers set it, every caller header, and
      `Authorization: Bearer <token>` when a token was obtained (replacing a
      caller's own). `options` is the caller's options object. */
  method FetchHeaders(options: map<string, JsValue>, token: Option<string>) returns (headers: map<string, JsValue>)
    ensures var caller := Spread(Get(JObj(options), "headers"));
            && "Content-Type" in headers
            && headers["Content-Type"] == (if "Content-Type" in caller then caller["Content-Type"] else JStr("application/json"))
            && (HasToken(token) ==> "Authorization" in headers && headers["Authorization"] == JStr("Bearer " + token.value))
            && (!HasToken(token) ==> ("Authorization" in headers <==> "Authorization" in caller))
            && (forall k :: k in caller && (k != "Authorization" || !HasToken(token)) ==> k in headers && headers[k] == caller[k])
            && (forall k :: k in headers ==> k in caller || k == "Content-Type" || k == "Authorization")
  {
    var caller := Spread(Get(JObj(options), "headers"));
    headers := map["Content-Type" := JStr("application/json")] + caller;
    if HasToken(token) {
      headers := headers["Authorization" := JStr("Bearer " + token.value)];
    }
  }

  /** `{ ...options, headers, credentials: 'same-origin' }`: the caller's
      options with the computed headers and same-origin credentials on
      top. */
  function FetchOptions(options: map<string, JsValue>, headers: map<string, JsValue>): (r: map<string, JsValue>)
    ensures "headers" in r && r["headers"] == JObj(headers)
    ensures "credentials" in r && r["credentials"] == JStr("same-origin")
    ensures forall k :: k in options && k != "headers" && k != "credentials" ==> k in r && r[k] == options[k]
    ensures forall k :: k in r ==> k in options || k == "headers" || k == "credentials"
  {
    options + map["headers" := JObj(headers), "credentials" := JStr("same-origin")]
  }

  // ---------------------------------------------------------------------
  // fetchAPI: the outcome of a response
  // ---------------------------------------------------------------------

  /** What the promise `fetchAPI` returns settles to. `Rejected` carries the
      value the thrown `Error` is built from; `NullErrorBody` is the
      TypeError of reading `message` of a `null` error body;
      `UnparsableBody` is the rejection of `response.json()` on an OK
      response. */
  datatype Outcome = Resolved(body: JsValue) | RawResponse | Rejected(message: JsValue) | NullErrorBody | UnparsableBody

  /** The default error text: `API error: <status> <statusText>`. */
  function ApiErrorText(status: nat, statusText: string): (t: string)
    ensures StartsWith(t, "API error: ")
  {
    "API error: " + Decimal(status) + " " + statusText
  }

  /** The response handling of `fetchAPI`. `json` is what parsing the body
      gives (`None` when it is not JSON). A non-OK response is rejected:
      401 and 403 with 'Authentication failed', any other status with the
      body's `message`, else its `error`, else the default text; an OK
      response yields the parsed body when the content type is JSON and
      the response itself otherwise. */
  function HandleResponse(ok: bool, status: nat, statusText: string, contentType: Option<string>, json: Option<JsValue>): (r: Outcome)
    ensures !ok && (status == 401 || status == 403) ==> r == Rejected(JStr("Authentication failed"))
    ensures !ok && status != 401 && status != 403 ==>
              var e := if json.Some? then json.value else JObj(map[]);
              && (e == JNull ==> r == NullErrorBody)
              && (e != JNull ==> r.Rejected? && Truthy(r.message))
              && (e != JNull && TruthyOpt(Get(e, "message")) ==> r.message == Get(e, "message").value)
              && (e != JNull && !TruthyOpt(Get(e, "message")) && TruthyOpt(Get(e, "error")) ==> r.message == Get(e, "error").value)
              && (e != JNull && !TruthyOpt(Get(e, "message")) && !TruthyOpt(Get(e, "error")) ==>
                    r.message == JStr(ApiErrorText(status, statusText)))
    ensures ok && IsJson(contentType) ==> r == if json.Some? then Resolved(json.value) else UnparsableBody
    ensures ok && !IsJson(contentType) ==> r == RawResponse
    ensures r.Rejected? || r.NullErrorBody? <==> !ok
    ensures r.Rejected? || r.NullErrorBody? || r.UnparsableBody? <==> !ok || (IsJson(contentType) && json.None?)
  {
    if !ok then
      if status == 401 || status == 403 then Rejected(JStr("Authentication failed"))
      else
        var errorData := if json.Some? then json.value else JObj(map[]);
        if errorData == JNull then NullErrorBody
        else Rejected(Or(Get(errorData, "message"), Or(Get(errorData, "error"), JStr(ApiErrorText(status, statusText)))))
    else if IsJson(contentType) then
      if json.Some? then Resolved(json.value) else UnparsableBody
    else RawResponse
  }

  // ---------------------------------------------------------------------
  // formatTime (the copy in api.js)
  // ---------------------------------------------------------------------

  /** `formatTime(seconds)` of api.js: "0:00" for NaN or a negative number,
      otherwise whole minutes, a colon and two-digit whole seconds. It
      agrees with the copy in utils.js on every input. */
  function FormatTime(seconds: Utils.Number): (r: string)
    ensures r == Utils.FormatTime(seconds)
  {
    if seconds.NaN? || seconds.v < 0.0 then "0:00"
    else
      var minutes := (seconds.v / 60.0).Floor;
      var remainingSeconds := Utils.Rem60(seconds.v).Floor;
      Decimal(minutes) + ":" + Utils.Pad2(Decimal(remainingSeconds))
  }
}
