/** One transport to one base URL (lib/liteapi/connection.rb): turning an
    HTTP outcome into the unwrapped `data` payload or a typed exception. */
module Connection {
  import opened Wrappers
  import opened Json
  import opened Errors
  import Text

  /** Statuses the retry middleware is configured to retry. */
  const RetryStatuses: set<int> := {429, 500, 502, 503, 504}

  const UnknownErrorMessage: string := "Unknown error"
  const UnexpectedStatusPrefix: string := "Unexpected response status: "
  const TimeoutMessage: string := "Request timed out"
  const ConnectionFailedMessage: string := "Connection failed"

  /** The settings a connection is built with. */
  datatype Connection = Connection(
    apiKey: string,
    baseUrl: Option<string>,
    timeout: Option<int>,
    openTimeout: Option<int>,
    maxRetries: Option<int>)

  datatype Verb = Get | Post | Put

  /** The request handed to the HTTP library: GET payloads become the query
      string, POST and PUT payloads the JSON body. */
  datatype HttpRequest = HttpRequest(verb: Verb, path: string, query: Object, body: Option<Object>)

  /** What the HTTP library reports for one request: a Faraday timeout, a
      Faraday connection failure, or a response with its parsed body
      (`None` when the body is `nil`). Other Faraday exceptions, which
      `request` does not rescue, are outside the model. */
  datatype Transport = TimedOut | ConnectionFailed | Responded(status: int, body: Option<Object>)

  /** The server and network, seen from one connection. */
  type Network = (Connection, HttpRequest) -> Transport

  /** `response.body || {}`. */
  function Defaulted(raw: Option<Object>): (body: Object)
    ensures raw.None? ==> body == map[]
    ensures raw.Some? ==> body == raw.value
  {
    raw.GetOr(map[])
  }

  /** The first truthy value of `vs`, i.e. the value of `vs[0] || vs[1] || ...`
      (`nil` when there is none). */
  function FirstTruthy(vs: seq<Json>): Json {
    if |vs| == 0 then JNull
    else if Truthy(vs[0]) then vs[0]
    else FirstTruthy(vs[1..])
  }

  /** `error_message`: `error.message`, else the top-level `message`, else
      "Unknown error". Only `nil`/`false` fall through, so a present empty
      string is kept. A non-Hash `error` field reads as absent here; see
      `ErrorMessageAsWritten` for what the source does with it. */
  function ErrorMessage(body: Object): (m: Json)
    ensures Truthy(m)
    ensures m == FirstTruthy([DigOrNil(body, "error", "message"), Lookup(body, "message"), JStr(UnknownErrorMessage)])
  {
    var candidates := [DigOrNil(body, "error", "message"), Lookup(body, "message"), JStr(UnknownErrorMessage)];
    assert FirstTruthy(candidates[1..][1..]) == candidates[2] by {
      assert candidates[1..][1..] == [candidates[2]];
    }
    Or(Or(candidates[0], candidates[1]), candidates[2])
  }

  /** The message of the catch-all branch: the prefix, then the status in
      `Integer#to_s` form. The status can be read back from it, and by
      `Text.CanonicalIsToString` no other canonical digits read back to it. */
  function UnexpectedStatusMessage(status: int): (m: string)
    ensures Text.StartsWith(m, UnexpectedStatusPrefix)
    ensures |m| > |UnexpectedStatusPrefix|
    ensures Text.Canonical(m[|UnexpectedStatusPrefix|..])
    ensures Text.IsDecimal(m[|UnexpectedStatusPrefix|..]) && Text.ParseInt(m[|UnexpectedStatusPrefix|..]) == status
  {
    var digits := Text.IntToString(status);
    Text.IntToStringRoundTrip(status);
    assert (UnexpectedStatusPrefix + digits)[|UnexpectedStatusPrefix|..] == digits;
    UnexpectedStatusPrefix + digits
  }

  /** The exception class `handle_response` picks for a 4xx or 5xx status:
      the four specific statuses take precedence over the 400..499 range. */
  function ErrorClassFor(status: int): (c: ErrorClass)
    requires 400 <= status <= 599
    ensures IsAPIError(c)
    ensures status == 401 ==> c == AuthenticationError
    ensures status == 404 ==> c == NotFoundError
    ensures status == 422 ==> c == ValidationError
    ensures status == 429 ==> c == RateLimitError
    ensures status <= 499 && status !in {401, 404, 422, 429} ==> c == ClientError
    ensures IsClientError(c) <==> status <= 499
    ensures IsServerError(c) <==> 500 <= status
  {
    if status == 401 then AuthenticationError
    else if status == 404 then NotFoundError
    else if status == 422 then ValidationError
    else if status == 429 then RateLimitError
    else if status <= 499 then ClientError
    else ServerError
  }

  /** `handle_response`: a 2xx status returns the body's `data` (possibly
      `nil`); every other status raises an `APIError` carrying the status and
      the whole (defaulted) body; 4xx and 5xx also carry `error.code` and the
      resolved message, anything else gets the "Unexpected response status"
      message and no code. */
  function HandleResponse(status: int, raw: Option<Object>): (r: Result<Json, Exception>)
    ensures r.Success? <==> 200 <= status <= 299
    ensures r.Success? ==> r.value == Lookup(Defaulted(raw), "data")
    ensures r.Failure? ==> WellFormed(r.error) && IsAPIError(r.error.cls)
    ensures r.Failure? ==> r.error.api.value.status == Some(status)
    ensures r.Failure? ==> r.error.api.value.response == JObj(Defaulted(raw))
    ensures r.Failure? ==> (IsClientError(r.error.cls) <==> 400 <= status <= 499)
    ensures r.Failure? ==> (IsServerError(r.error.cls) <==> 500 <= status <= 599)
    ensures 400 <= status <= 599 ==>
      r.Failure? && r.error.cls == ErrorClassFor(status)
      && r.error.message == ErrorMessage(Defaulted(raw))
      && r.error.api.value.code == DigOrNil(Defaulted(raw), "error", "code")
    ensures status < 200 || 300 <= status <= 399 || 599 < status ==>
      r.Failure? && r.error.cls == APIError
      && r.error.message == JStr(UnexpectedStatusMessage(status))
      && r.error.api.value.code == JNull
  {
    var body := Defaulted(raw);
    if 200 <= status <= 299 then
      Success(Lookup(body, "data"))
    else if 400 <= status <= 599 then
      Failure(NewAPIError(ErrorClassFor(status), ErrorMessage(body), Some(status),
                          DigOrNil(body, "error", "code"), JObj(body)))
    else
      Failure(NewAPIError(APIError, JStr(UnexpectedStatusMessage(status)), Some(status), JNull, JObj(body)))
  }

  /** The request for `get`/`post`/`put`: `req.params = payload if payload.any?`
      for GET, `req.body = payload` otherwise. */
  function BuildRequest(verb: Verb, path: string, payload: Object): (req: HttpRequest)
    ensures req.verb == verb && req.path == path
    ensures verb == Get ==> req.body.None? && req.query == payload
    ensures verb != Get ==> req.body == Some(payload) && req.query == map[]
  {
    match verb
    case Get => HttpRequest(Get, path, if |payload| > 0 then payload else map[], None)
    case _ => HttpRequest(verb, path, map[], Some(payload))
  }

  /** `request` after the HTTP library returns: a timeout or connection
      failure becomes a plain `Liteapi::Error`, a response goes through the
      corrected `HandleResponse` (`ExecuteAsWritten` is the source as written). */
  function Execute(t: Transport): (r: Result<Json, Exception>)
    ensures t.TimedOut? ==> r == Failure(NewError(TimeoutMessage))
    ensures t.ConnectionFailed? ==> r == Failure(NewError(ConnectionFailedMessage))
    ensures r.Failure? ==> WellFormed(r.error)
    ensures r.Failure? ==> (IsAPIError(r.error.cls) <==> t.Responded?)
    ensures r.Success? <==> t.Responded? && 200 <= t.status <= 299
    ensures t.Responded? ==> r == HandleResponse(t.status, t.body)
  {
    match t
    case TimedOut => Failure(NewError(TimeoutMessage))
    case ConnectionFailed => Failure(NewError(ConnectionFailedMessage))
    case Responded(status, body) => HandleResponse(status, body)
  }

  /** `Connection#get`, `#post` and `#put`: the request `BuildRequest` makes
      goes through `net` once, and its outcome is classified. */
  function Send(conn: Connection, verb: Verb, path: string, payload: Object, net: Network): (r: Result<Json, Exception>)
    ensures var t := net(conn, BuildRequest(verb, path, payload));
      && (t.TimedOut? ==> r == Failure(NewError(TimeoutMessage)))
      && (t.ConnectionFailed? ==> r == Failure(NewError(ConnectionFailedMessage)))
      && (t.Responded? ==> r == HandleResponse(t.status, t.body))
  {
    Execute(net(conn, BuildRequest(verb, path, payload)))
  }

  /** Every status the middleware retries is one `handle_response` would
      raise as a rate-limit or server error, never a success. */
  lemma RetryStatusesAreErrors(status: int, raw: Option<Object>)
    requires status in RetryStatuses
    ensures HandleResponse(status, raw).Failure?
    ensures HandleResponse(status, raw).error.cls in {RateLimitError, ServerError}
  {
  }

  /** Ruby `||` keeps a present empty string: an empty `error.message` is the message. */
  lemma EmptyErrorMessageKept(body: Object)
    requires DigOrNil(body, "error", "message") == JStr("")
    ensures ErrorMessage(body) == JStr("")
  {
  }

  /** The fallback chain step by step: a truthy `error.message` wins; without
      one a truthy top-level `message` is used, and "Unknown error" otherwise. */
  lemma ErrorMessageFallback(body: Object)
    ensures Truthy(DigOrNil(body, "error", "message")) ==>
      ErrorMessage(body) == DigOrNil(body, "error", "message")
    ensures !Truthy(DigOrNil(body, "error", "message")) && Truthy(Lookup(body, "message")) ==>
      ErrorMessage(body) == Lookup(body, "message")
    ensures !Truthy(DigOrNil(body, "error", "message")) && !Truthy(Lookup(body, "message")) ==>
      ErrorMessage(body) == JStr(UnknownErrorMessage)
  {
  }

  /** Two catch-all errors for different statuses have different messages. */
  lemma UnexpectedStatusMessageInjective(s1: int, s2: int)
    requires UnexpectedStatusMessage(s1) == UnexpectedStatusMessage(s2)
    ensures s1 == s2
  {
  }

  // ---------------------------------------------------------------------
  // The source as written: `body.dig('error', ...)` on a 4xx/5xx body whose
  // `error` field is neither null nor an object raises Ruby's TypeError
  // instead of an SDK exception.

  /** What escapes `handle_response` in the source: an SDK exception, or the
      `TypeError` raised by `Hash#dig`. */
  datatype Raised = Sdk(e: Exception) | RubyTypeError

  /** `error_message` as written: `None` when the `dig` raises. */
  function ErrorMessageAsWritten(body: Object): (m: Option<Json>)
    ensures m.None? <==> Dig(body, "error", "message").DigTypeError?
    ensures m.Some? ==> m.value == ErrorMessage(body)
  {
    match Dig(body, "error", "message")
    case DigTypeError => None
    case Found(v) => Some(Or(Or(v, Lookup(body, "message")), JStr(UnknownErrorMessage)))
  }

  /** `handle_response` as written, with `Hash#dig`'s `TypeError` modelled. */
  function HandleResponseAsWritten(status: int, raw: Option<Object>): (r: Result<Json, Raised>)
    ensures r.Success? <==> 200 <= status <= 299
    ensures r.Success? ==> r.value == Lookup(Defaulted(raw), "data")
    ensures r == Failure(RubyTypeError) <==>
      400 <= status <= 599 && Dig(Defaulted(raw), "error", "message").DigTypeError?
    ensures r.Failure? && r.error.Sdk? ==>
      && WellFormed(r.error.e) && IsAPIError(r.error.e.cls)
      && r.error.e.api.value.status == Some(status)
      && r.error.e.api.value.response == JObj(Defaulted(raw))
  {
    var body := Defaulted(raw);
    if 200 <= status <= 299 then
      Success(Lookup(body, "data"))
    else if 400 <= status <= 599 then
      match (ErrorMessageAsWritten(body), Dig(body, "error", "code"))
      case (Some(message), Found(code)) =>
        Failure(Sdk(NewAPIError(ErrorClassFor(status), message, Some(status), code, JObj(body))))
      case _ => Failure(RubyTypeError)
    else
      Failure(Sdk(NewAPIError(APIError, JStr(UnexpectedStatusMessage(status)), Some(status), JNull, JObj(body))))
  }

  /** The source escapes its own taxonomy: a 401 whose `error` field is a
      string raises a `TypeError`, not an `AuthenticationError`, while
      `HandleResponse` raises the `AuthenticationError` with the fallback message. */
  lemma StringErrorFieldEscapesTaxonomy()
    ensures HandleResponseAsWritten(401, Some(map["error" := JStr("Invalid API key")])) == Failure(RubyTypeError)
    ensures HandleResponse(401, Some(map["error" := JStr("Invalid API key")])).error.cls == AuthenticationError
    ensures HandleResponse(401, Some(map["error" := JStr("Invalid API key")])).error.message == JStr(UnknownErrorMessage)
  {
    var body := map["error" := JStr("Invalid API key")];
    assert Lookup(body, "error") == JStr("Invalid API key");
  }

  /** In general: for every 4xx/5xx status the source raises `TypeError`
      exactly when `error` is present and not an object, and otherwise it
      raises the same exception as `HandleResponse`. */
  lemma AsWrittenAgreesExceptOnMalformedError(status: int, raw: Option<Object>)
    ensures var e := Lookup(Defaulted(raw), "error");
      (HandleResponseAsWritten(status, raw) == Failure(RubyTypeError)
       <==> 400 <= status <= 599 && !e.JNull? && !e.JObj?)
    ensures HandleResponseAsWritten(status, raw) != Failure(RubyTypeError) ==>
      HandleResponseAsWritten(status, raw) ==
        match HandleResponse(status, raw)
        case Success(v) => Success(v)
        case Failure(x) => Failure(Sdk(x))
  {
  }

  /** `request` as written: its rescue clauses catch only the two Faraday
      failures, so a `TypeError` from `handle_response` escapes it too. */
  function ExecuteAsWritten(t: Transport): (r: Result<Json, Raised>)
    ensures t.TimedOut? ==> r == Failure(Sdk(NewError(TimeoutMessage)))
    ensures t.ConnectionFailed? ==> r == Failure(Sdk(NewError(ConnectionFailedMessage)))
    ensures t.Responded? ==> r == HandleResponseAsWritten(t.status, t.body)
  {
    match t
    case TimedOut => Failure(Sdk(NewError(TimeoutMessage)))
    case ConnectionFailed => Failure(Sdk(NewError(ConnectionFailedMessage)))
    case Responded(status, body) => HandleResponseAsWritten(status, body)
  }

  /** `Execute` differs from `request` as written exactly where
      `HandleResponse` differs from `handle_response`: on a 4xx/5xx response
      whose `error` field is neither nil nor an object. */
  lemma ExecuteAgreesExceptOnMalformedError(t: Transport)
    ensures (ExecuteAsWritten(t) == Failure(RubyTypeError)) <==>
      (t.Responded? && 400 <= t.status <= 599
       && !Lookup(Defaulted(t.body), "error").JNull? && !Lookup(Defaulted(t.body), "error").JObj?)
    ensures ExecuteAsWritten(t) != Failure(RubyTypeError) ==>
      ExecuteAsWritten(t) ==
        match Execute(t)
        case Success(v) => Success(v)
        case Failure(x) => Failure(Sdk(x))
  {
    if t.Responded? {
      AsWrittenAgreesExceptOnMalformedError(t.status, t.body);
    }
  }
}
