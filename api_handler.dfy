/** The `ApiHandler` class of public/js/apiHandler.js: how a response is
    normalised into `{success, status, statusText, data, error}`, how the
    request URL and options are built, and the results returned when the
    fetch itself fails. The response, the stored token and the browser's
    online flag are parameters. */
module ApiHandler {
  import opened Wrappers
  import opened Js

  /** A fetched response. `json` is what `response.json()` yields (`None`
      when it rejects); `text` what `response.text()` yields (`None` when
      it rejects). Only the reader the content type selects is used. */
  datatype Response = Response(
    ok: bool,
    status: nat,
    statusText: string,
    contentType: Option<string>,
    json: Option<JsValue>,
    text: Option<string>)

  /** The normalised result every request resolves to. */
  datatype Normalized = Normalized(success: JsValue, status: nat, statusText: string, data: JsValue, error: JsValue)

  /** `statusText || 'Request failed with status: ' + status`: never
      empty. */
  function FallbackError(statusText: string, status: nat): (e: JsValue)
    ensures Truthy(e) && e.JStr?
    ensures statusText != "" ==> e == JStr(statusText)
    ensures statusText == "" ==> e == JStr("Request failed with status: " + Decimal(status))
  {
    if statusText != "" then JStr(statusText) else JStr("Request failed with status: " + Decimal(status))
  }

  /** The error a parsed JSON body carries, before the final fallback:
      its truthy `error`, else its truthy `message` when the response is
      not OK, else `null`. */
  function BodyError(body: JsValue, ok: bool): (e: JsValue)
    ensures TruthyOpt(Get(body, "error")) ==> e == Get(body, "error").value
    ensures !TruthyOpt(Get(body, "error")) && TruthyOpt(Get(body, "message")) && !ok ==> e == Get(body, "message").value
    ensures !TruthyOpt(Get(body, "error")) && !(TruthyOpt(Get(body, "message")) && !ok) ==> e == JNull
  {
    if TruthyOpt(Get(body, "error")) then Get(body, "error").value
    else if TruthyOpt(Get(body, "message")) && !ok then Get(body, "message").value
    else JNull
  }

  /** `normalizeResponse(response)`.
      A JSON body sets `success` from its own `success` property when it has
      one (else `response.ok` stays), `data` to its truthy `data` or the
      whole body, and `error` to its truthy `error`, or its truthy `message`
      on a non-OK response. A body that does not parse, or parses to
      `null` (whose properties cannot be read), gives `success: false` and
      'Failed to parse JSON response'. A non-JSON body becomes `data` as
      text, or 'Failed to read response' when it cannot be read. Last, an
      unsuccessful result without an error gets the status text, or
      'Request failed with status: N'. */
  method NormalizeResponse(response: Response) returns (n: Normalized)
    ensures n == NormalizedOf(response)
    ensures n.status == response.status && n.statusText == response.statusText
    ensures !Truthy(n.success) ==> Truthy(n.error)
    ensures IsJson(response.contentType) && response.json.Some? && response.json.value != JNull ==>
              var body := response.json.value;
              && n.success == (if Get(body, "success").Some? then Get(body, "success").value else JBool(response.ok))
              && n.data == Or(Get(body, "data"), body)
              && (Truthy(BodyError(body, response.ok)) ==> n.error == BodyError(body, response.ok))
              && (!Truthy(BodyError(body, response.ok)) && Truthy(n.success) ==> n.error == JNull)
              && (!Truthy(BodyError(body, response.ok)) && !Truthy(n.success) ==>
                    n.error == FallbackError(response.statusText, response.status))
    ensures IsJson(response.contentType) && (response.json.None? || response.json.value == JNull) ==>
              n == Normalized(JBool(false), response.status, response.statusText, JNull, JStr("Failed to parse JSON response"))
    ensures !IsJson(response.contentType) && response.text.Some? ==>
              && n.success == JBool(response.ok)
              && n.data == JStr(response.text.value)
              && n.error == (if response.ok then JNull else FallbackError(response.statusText, response.status))
    ensures !IsJson(response.contentType) && response.text.None? ==>
              n == Normalized(JBool(response.ok), response.status, response.statusText, JNull, JStr("Failed to read response"))
  {
    n := Normalized(JBool(response.ok), response.status, response.statusText, JNull, JNull);
    if IsJson(response.contentType) {
      if response.json.None? || response.json.value == JNull {
        n := n.(success := JBool(false), error := JStr("Failed to parse JSON response"));
      } else {
        var jsonData := response.json.value;
        if Get(jsonData, "success").Some? {
          n := n.(success := Get(jsonData, "success").value);
        }
        n := n.(data := Or(Get(jsonData, "data"), jsonData));
        if TruthyOpt(Get(jsonData, "error")) {
          n := n.(error := Get(jsonData, "error").value);
        } else if TruthyOpt(Get(jsonData, "message")) && !response.ok {
          n := n.(error := Get(jsonData, "message").value);
        }
      }
    } else {
      if response.text.Some? {
        n := n.(data := JStr(response.text.value));
      } else {
        n := n.(error := JStr("Failed to read response"));
      }
    }
    if !Truthy(n.success) && !Truthy(n.error) {
      n := n.(error := FallbackError(n.statusText, n.status));
    }
  }

  /** A body that says it failed is reported as failed, with its own error
      when it has a truthy one, whatever the HTTP status. */
  lemma BodyVerdictWins(response: Response, n: Normalized, verdict: bool)
    requires IsJson(response.contentType) && response.json.Some? && response.json.value.JObj?
    requires "success" in response.json.value.fields && response.json.value.fields["success"] == JBool(verdict)
    requires n == NormalizedOf(response)
    ensures n.success == JBool(verdict)
    ensures !verdict ==> Truthy(n.error)
  {
  }

  /** The result `NormalizeResponse` computes, as a function. */
  function NormalizedOf(response: Response): (n: Normalized)
    ensures !Truthy(n.success) ==> Truthy(n.error)
    ensures n.status == response.status && n.statusText == response.statusText
  {
    var start := Normalized(JBool(response.ok), response.status, response.statusText, JNull, JNull);
    var parsed :=
      if IsJson(response.contentType) then
        if response.json.None? || response.json.value == JNull then
          start.(success := JBool(false), error := JStr("Failed to parse JSON response"))
        else
          var body := response.json.value;
          start.(success := if Get(body, "success").Some? then Get(body, "success").value else start.success,
                 data := Or(Get(body, "data"), body),
                 error := BodyError(body, response.ok))
      else if response.text.Some? then start.(data := JStr(response.text.value))
      else start.(error := JStr("Failed to read response"));
    if !Truthy(parsed.success) && !Truthy(parsed.error) then parsed.(error := FallbackError(parsed.statusText, parsed.status))
    else parsed
  }

  // ---------------------------------------------------------------------
  // Building the request
  // ---------------------------------------------------------------------

  /** The constructor's `baseUrl || window.location.origin`. */
  function BaseUrl(given: string, origin: string): (b: string)
    ensures given != "" ==> b == given
    ensures given == "" ==> b == origin
  {
    if given != "" then given else origin
  }

  /** The request URL: an endpoint starting with "http" is absolute and
      used as it is; any other is appended to the base URL. */
  function RequestUrl(baseUrl: string, endpoint: string): (u: string)
    ensures StartsWith(endpoint, "http") ==> u == endpoint
    ensures !StartsWith(endpoint, "http") ==> StartsWith(u, baseUrl) && u[|baseUrl|..] == endpoint
  {
    if StartsWith(endpoint, "http") then endpoint else baseUrl + endpoint
  }

  /** The request body: none, the caller's value as given, or the JSON text
      of a truthy object or array (`Serialized(v)` stands for
      `JSON.stringify(v)`). */
  datatype Body = NoBody | AsGiven(value: JsValue) | Serialized(value: JsValue)

  /** The options passed to `fetch`, apart from the abort signal; `fields`
      holds every property but `body`. */
  datatype RequestOptions = RequestOptions(fields: map<string, JsValue>, body: Body)

  /** `options.withAuth !== false` */
  predicate WantsAuth(options: map<string, JsValue>)
  {
    Get(JObj(options), "withAuth") != Some(JBool(false))
  }

  /** The headers value before a token is added: the caller's own `headers`
      when it passed any (the spread of `options` comes last and replaces
      the merged default), else `Content-Type: application/json`. */
  function HeadersBeforeAuth(options: map<string, JsValue>): (h: JsValue)
    ensures "headers" in options ==> h == options["headers"]
    ensures "headers" !in options ==> h == JObj(map["Content-Type" := JStr("application/json")])
  {
    if "headers" in options then options["headers"]
    else JObj(map["Content-Type" := JStr("application/json")])
  }

  /** Adding the token throws (a property cannot be set on `null` or a
      primitive in the class's strict-mode code); the handler turns that
      into the rejection 'Authentication failed'. */
  predicate AuthThrows(options: map<string, JsValue>, token: Option<string>)
  {
    WantsAuth(options) && token.Some? && token.value != ""
    && !HeadersBeforeAuth(options).JObj? && !HeadersBeforeAuth(options).JArr?
  }

  /** The request options of `request(endpoint, options)`, built step by
      step: `method` (the caller's, else "GET"), the headers, then every
      caller option; `Authorization: Bearer <token>` added to the headers
      unless `withAuth` is `false` or no token is stored; a truthy object
      or array body replaced by its JSON text. `None` is the rejection
      'Authentication failed'.

      The spread of `options` makes the request's headers the caller's own
      headers object whenever it passed one, so adding `Authorization`
      writes the token into that object too: `callerOptions` is the
      caller's options as they stand afterwards, and a later request that
      reuses them carries the token even with `withAuth: false`. */
  method BuildRequestOptions(options: map<string, JsValue>, token: Option<string>)
    returns (r: Option<RequestOptions>, callerOptions: map<string, JsValue>)
    ensures r.None? <==> AuthThrows(options, token)
    ensures r.None? || "headers" !in options ==> callerOptions == options
    ensures r.Some? ==>
              var f := r.value.fields;
              && "method" in f && f["method"] == (if "method" in options then options["method"] else JStr("GET"))
              && "headers" in f
              && (forall k :: k in options && k != "headers" && k != "body" ==> k in f && f[k] == options[k])
              && (forall k :: k in f ==> k == "method" || k == "headers" || (k in options && k != "body"))
              && (WantsAuth(options) && token.Some? && token.value != "" && HeadersBeforeAuth(options).JObj? ==>
                    f["headers"] == JObj(HeadersBeforeAuth(options).fields["Authorization" := JStr("Bearer " + token.value)]))
              && (!(WantsAuth(options) && token.Some? && token.value != "") || HeadersBeforeAuth(options).JArr? ==>
                    f["headers"] == HeadersBeforeAuth(options))
              && r.value.body == (if "body" !in options then NoBody
                                  else if Truthy(options["body"]) && (options["body"].JObj? || options["body"].JArr?)
                                  then Serialized(options["body"])
                                  else AsGiven(options["body"]))
    ensures r.Some? && "headers" in options ==> callerOptions == options["headers" := r.value.fields["headers"]]
  {
    var fields := map["method" := Or(Get(JObj(options), "method"), JStr("GET")),
                      "headers" := JObj(map["Content-Type" := JStr("application/json")] + Spread(Get(JObj(options), "headers")))];
    fields := fields + (options - {"body"});
    assert "headers" !in options ==> Spread(Get(JObj(options), "headers")) == map[];
    assert "headers" !in options ==> map["Content-Type" := JStr("application/json")] + map[] == map["Content-Type" := JStr("application/json")];
    assert fields["headers"] == HeadersBeforeAuth(options);
    callerOptions := options;
    var body := if "body" in options then AsGiven(options["body"]) else NoBody;
    if WantsAuth(options) {
      if token.Some? && token.value != "" {
        match fields["headers"]
        case JObj(h) =>
          fields := fields["headers" := JObj(h["Authorization" := JStr("Bearer " + token.value)])];
        case JArr(_) =>
        case _ =>
          return None, options;
      }
    }
    if "body" in options && Truthy(options["body"]) && (options["body"].JObj? || options["body"].JArr?) {
      body := Serialized(options["body"]);
    }
    if "headers" in options {
      callerOptions := options["headers" := fields["headers"]];
    }
    r := Some(RequestOptions(fields, body));
  }

  /** Caller headers replace the defaults wholesale: a caller's headers
      object without `Content-Type` leaves the request without one. */
  lemma CallerHeadersDropContentType(options: map<string, JsValue>)
    requires "headers" in options && options["headers"].JObj?
    requires "Content-Type" !in options["headers"].fields
    ensures HeadersBeforeAuth(options).JObj? && "Content-Type" !in HeadersBeforeAuth(options).fields
  {
  }

  // ---------------------------------------------------------------------
  // Fetch failures
  // ---------------------------------------------------------------------

  /** Why `fetch` failed: the timeout aborted it, the browser is offline,
      or another error with the given message. */
  datatype FetchError = Aborted | Offline | Failed(message: string)

  /** The result `request` resolves to when `fetch` throws: `success: false`,
      status 0, no data, a status text naming the cause and a non-empty
      error. `timeoutSeconds` is the decimal text of the timeout in
      seconds (the default is 30). */
  function FailureResult(err: FetchError, online: bool, timeoutSeconds: string): (n: Normalized)
    ensures n.success == JBool(false) && n.status == 0 && n.data == JNull && Truthy(n.error)
    ensures err.Aborted? ==> n.statusText == "Timeout" && n.error == JStr("Request timed out after " + timeoutSeconds + " seconds")
    ensures !err.Aborted? && !online ==> n.statusText == "Offline" && n.error == JStr("Network connection unavailable")
    ensures err.Failed? && online ==> n.statusText == "Error"
    ensures err.Failed? && online && err.message != "" ==> n.error == JStr(err.message)
    ensures err.Failed? && online && err.message == "" ==> n.error == JStr("Network request failed")
  {
    if err.Aborted? then
      Normalized(JBool(false), 0, "Timeout", JNull, JStr("Request timed out after " + timeoutSeconds + " seconds"))
    else if !online then
      Normalized(JBool(false), 0, "Offline", JNull, JStr("Network connection unavailable"))
    else
      Normalized(JBool(false), 0, "Error", JNull, JStr(if err.Failed? && err.message != "" then err.message else "Network request failed"))
  }

  /** `options.timeout || this.defaultTimeout`, in milliseconds. */
  function Timeout(options: map<string, JsValue>): (t: JsValue)
    ensures TruthyOpt(Get(JObj(options), "timeout")) ==> t == options["timeout"]
    ensures !TruthyOpt(Get(JObj(options), "timeout")) ==> t == JNum(30000.0)
  {
    Or(Get(JObj(options), "timeout"), JNum(30000.0))
  }
}
