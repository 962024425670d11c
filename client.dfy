/**
 * The request transport of aiosupervisor/client.py: the headers of a call,
 * the classification of an HTTP outcome into a response envelope or a typed
 * error, and the ownership of the HTTP session.
 *
 * Network I/O is not modelled: what the HTTP library reports for a call (the
 * status, the Content-Type header, the body text and what decoding it as JSON
 * gives, or the exception it raised) is an input of type `Outcome`.
 */
module Client {
  import opened Wrappers
  import opened Json
  import opened Strings
  import opened Const
  import opened Exceptions

  /** The HTTP methods the transport issues. */
  datatype Verb = Get | Post | Put | Delete

  // ---------------------------------------------------------------------------
  // The response envelope (`Response` of aiosupervisor/models/base.py, of
  // which only the fields the transport reads and writes are modelled).

  /** The envelope's `result` discriminator. */
  datatype ResultType = OkResult | ErrorResult

  /** What an envelope's `data` holds: nothing, the raw text of a TEXT call, or decoded JSON. */
  datatype Data = NoData | TextData(text: string) | JsonData(json: Json)

  /** The envelope returned by every call and decoded from every JSON body. */
  datatype Response = Response(result: ResultType, data: Data := NoData, message: Option<string> := None, jobId: Option<string> := None)

  // ---------------------------------------------------------------------------
  // The outcome of one HTTP exchange, as input data.

  /**
   * The classes, relevant to the transport's `except` clauses, that an
   * exception raised by the HTTP library or the JSON codec is an instance of.
   * An exception of none of them (an empty set) is not caught.
   */
  datatype ExcClass = UnicodeDecodeErrorClass | ClientResponseErrorClass | TimeoutErrorClass | ClientErrorClass

  /** What `Response.from_json` does with the body text: an envelope, or the exception it raises. */
  datatype ParsedBody = Parsed(envelope: Response) | NotParsed(raised: set<ExcClass>)

  /** What `response.text()` does: the body text (and how it parses), or the exception it raises. */
  datatype Body = Readable(text: string, parsed: ParsedBody) | Unreadable(raised: set<ExcClass>)

  /** A received HTTP response. `contentType` is the Content-Type header, absent when the response has none. */
  datatype HttpResponse = HttpResponse(status: nat, contentType: Option<string>, body: Body)

  /** A call either receives a response or the HTTP library raises before one arrives. */
  datatype Outcome = Received(response: HttpResponse) | Failed(raised: set<ExcClass>)

  /** What a call raises: a `SupervisorError`, or a foreign exception the transport lets through. */
  datatype Raised = Supervisor(error: SupervisorError) | Uncaught(classes: set<ExcClass>)

  // ---------------------------------------------------------------------------
  // Content-Type and headers.

  /** The Content-Type header as `headers.get("Content-Type", "")` reads it. */
  function ContentTypeText(contentType: Option<string>): string
  {
    if contentType.Some? then contentType.value else ""
  }

  const JsonMediaType := "application/json"

  /** `is_json`: the Content-Type mentions application/json anywhere; a missing header never does. */
  function IsJson(contentType: Option<string>): (b: bool)
    ensures b <==> exists i: nat :: OccursAt(ContentTypeText(contentType), JsonMediaType, i)
    ensures contentType.None? ==> !b
  {
    Contains(ContentTypeText(contentType), JsonMediaType)
  }

  /** The message of the error `is_json(..., raise_on_fail=True)` raises. */
  function NotJsonMessage(status: nat, contentType: Option<string>): string
  {
    "Unexpected response received from supervisor when expecting JSON. Status: "
      + Decimal(status) + ", content type: " + ContentTypeText(contentType)
  }

  /** `is_json` with `raise_on_fail`: a generic `SupervisorError` instead of `false` when asked to raise. */
  function CheckJson(status: nat, contentType: Option<string>, raiseOnFail: bool): (r: Result<bool, SupervisorError>)
    ensures r.Err? <==> raiseOnFail && !IsJson(contentType)
    ensures r.Ok? ==> r.value == IsJson(contentType)
    ensures r.Err? ==> r.error.kind == Generic && r.error.jobId.None?
                       && Message(r.error) == Some(NotJsonMessage(status, contentType))
  {
    if !IsJson(contentType) then
      if raiseOnFail then Err(NewError(Generic, Some(NotJsonMessage(status, contentType)))) else Ok(false)
    else Ok(true)
  }

  /** The error message names the status and the Content-Type that was received. */
  lemma NotJsonMessageMentions(status: nat, contentType: Option<string>)
    ensures Contains(NotJsonMessage(status, contentType), Decimal(status))
    ensures Contains(NotJsonMessage(status, contentType), ContentTypeText(contentType))
  {
    var head := "Unexpected response received from supervisor when expecting JSON. Status: ";
    var sep := ", content type: ";
    var ct := ContentTypeText(contentType);
    ContainsConcat(head, Decimal(status), sep + ct);
    assert NotJsonMessage(status, contentType) == head + Decimal(status) + (sep + ct);
    ContainsConcat(head + Decimal(status) + sep, ct, "");
    assert NotJsonMessage(status, contentType) == head + Decimal(status) + sep + ct + "";
  }

  const TextAccept := "text/plain, */*"
  const JsonAccept := "application/json, " + TextAccept

  /** The Accept header a call sends for its expected response kind. */
  function AcceptHeader(t: ResponseType): (a: string)
  {
    match t
    case TextContent => TextAccept
    case _ => JsonAccept
  }

  /**
   * Only TEXT calls leave JSON out of Accept; every call accepts plain text
   * and, last, anything.
   */
  lemma AcceptHeaderSpec(t: ResponseType)
    ensures Contains(AcceptHeader(t), JsonMediaType) <==> t != TextContent
    ensures Contains(AcceptHeader(t), "text/plain")
    ensures |AcceptHeader(t)| >= 3 && AcceptHeader(t)[|AcceptHeader(t)| - 3..] == "*/*"
  {
    if t == TextContent {
      assert |TextAccept| < |JsonMediaType|;
      assert forall i: nat :: !OccursAt(TextAccept, JsonMediaType, i);
      ContainsConcat("", "text/plain", ", */*");
      assert TextAccept == "" + "text/plain" + ", */*";
    } else {
      ContainsConcat("", JsonMediaType, ", " + TextAccept);
      assert JsonAccept == "" + JsonMediaType + (", " + TextAccept);
      ContainsConcat("application/json, ", "text/plain", ", */*");
      assert JsonAccept == "application/json, " + "text/plain" + ", */*";
    }
  }

  const BearerPrefix := "Bearer "

  /** The request headers: User-Agent with the package version, Accept, and the bearer token (section 2.1 of RFC 6750). */
  function Headers(version: string, token: string, t: ResponseType): (h: map<string, string>)
    ensures h.Keys == {"User-Agent", "Accept", "Authorization"}
    ensures h["Accept"] == AcceptHeader(t)
    ensures h["User-Agent"] == "AioSupervisor/" + version
    ensures h["Authorization"] == BearerPrefix + token
  {
    map["User-Agent" := "AioSupervisor/" + version, "Accept" := AcceptHeader(t), "Authorization" := BearerPrefix + token]
  }

  /** The token is recovered from the Authorization header by dropping the scheme; different tokens give different headers. */
  lemma BearerTokenRecoverable(version: string, t: ResponseType, token: string, other: string)
    ensures Headers(version, token, t)["Authorization"][|BearerPrefix|..] == token
    ensures token != other ==> Headers(version, token, t)["Authorization"] != Headers(version, other, t)["Authorization"]
  {
    var a, b := BearerPrefix + token, BearerPrefix + other;
    assert a[|BearerPrefix|..] == token;
    assert b[|BearerPrefix|..] == other;
  }

  // ---------------------------------------------------------------------------
  // Status classification.

  /**
   * The error class selected by an HTTP error status: 400 (section 15.5.1 of
   * RFC 9110), 401 (15.5.2), 403 (15.5.4), 404 (15.5.5) and 503 (15.6.4) have
   * their own classes, every other status the generic one.
   */
  function StatusErrorKind(status: nat): (k: ErrorKind)
    ensures k in {Generic, BadRequest, Authentication, Forbidden, NotFound, ServiceUnavailable}
    ensures k == Generic <==> status !in {400, 401, 403, 404, 503}
  {
    match status
    case 400 => BadRequest
    case 401 => Authentication
    case 403 => Forbidden
    case 404 => NotFound
    case 503 => ServiceUnavailable
    case _ => Generic
  }

  /** The one status that selects a status-specific class. */
  function CanonicalStatus(k: ErrorKind): Option<nat>
  {
    match k
    case BadRequest => Some(400)
    case Authentication => Some(401)
    case Forbidden => Some(403)
    case NotFound => Some(404)
    case ServiceUnavailable => Some(503)
    case _ => None
  }

  /** The status mapping is one-to-one on the five statuses it singles out. */
  lemma StatusKindInverse(k: ErrorKind, status: nat)
    ensures CanonicalStatus(k).Some? ==> StatusErrorKind(CanonicalStatus(k).value) == k
    ensures StatusErrorKind(status) != Generic ==> CanonicalStatus(StatusErrorKind(status)) == Some(status)
  {
  }

  // ---------------------------------------------------------------------------
  // One call: the body of the `try` block, then the `except` clauses.

  /** How the `try` block of `_request` ends. */
  datatype Step = Returned(response: Response) | RaisedSupervisor(error: SupervisorError) | Threw(classes: set<ExcClass>)

  /** `Response.from_json(await response.text())`. */
  function ReadEnvelope(body: Body): Result<Response, set<ExcClass>>
  {
    match body
    case Unreadable(c) => Err(c)
    case Readable(_, NotParsed(c)) => Err(c)
    case Readable(_, Parsed(env)) => Ok(env)
  }

  /** The `try` block for a received response: the error path for status 400 and up, otherwise the success dispatch. */
  function Attempt(t: ResponseType, resp: HttpResponse): Step
  {
    if resp.status >= 400 then
      var kind := StatusErrorKind(resp.status);
      if IsJson(resp.contentType) then
        match ReadEnvelope(resp.body)
        case Err(c) => Threw(c)
        case Ok(env) => RaisedSupervisor(NewError(kind, env.message, env.jobId))
      else RaisedSupervisor(NewError(kind))
    else
      match t
      case JsonContent =>
        (match CheckJson(resp.status, resp.contentType, true)
         case Err(e) => RaisedSupervisor(e)
         case Ok(_) =>
           match ReadEnvelope(resp.body)
           case Err(c) => Threw(c)
           case Ok(env) => Returned(env))
      case TextContent =>
        (match resp.body
         case Unreadable(c) => Threw(c)
         case Readable(text, _) => Returned(Response(OkResult, TextData(text))))
      case NoContent => Returned(Response(OkResult))
  }

  const UnusableResponseMessage := "Unusable response received from Supervisor, check logs"
  const TimeoutMessage := "Timeout connecting to Supervisor"
  const ConnectionMessage := "Error occurred connecting to supervisor"

  /**
   * The `except` clauses, in order: decoding and response errors, then
   * timeouts, then any other aiohttp client error. A `SupervisorError` raised
   * inside the block and foreign exceptions pass through unchanged.
   */
  function Reclassify(step: Step): Result<Response, Raised>
  {
    match step
    case Returned(r) => Ok(r)
    case RaisedSupervisor(e) => Err(Supervisor(e))
    case Threw(c) =>
      if UnicodeDecodeErrorClass in c || ClientResponseErrorClass in c then
        Err(Supervisor(NewError(ResponseError, Some(UnusableResponseMessage))))
      else if TimeoutErrorClass in c then
        Err(Supervisor(NewError(Timeout, Some(TimeoutMessage))))
      else if ClientErrorClass in c then
        Err(Supervisor(NewError(Connection, Some(ConnectionMessage))))
      else Err(Uncaught(c))
  }

  /** The result of `_request` for a call expecting `t`, given what the HTTP exchange did. */
  function Classify(t: ResponseType, outcome: Outcome): Result<Response, Raised>
  {
    match outcome
    case Failed(c) => Reclassify(Threw(c))
    case Received(resp) => Reclassify(Attempt(t, resp))
  }

  /** A status of 400 or more never yields a result, whatever the kind of call and whatever the body. */
  lemma ErrorStatusAlwaysRaises(t: ResponseType, resp: HttpResponse)
    requires resp.status >= 400
    ensures Classify(t, Received(resp)).Err?
  {
  }

  /** A call only returns normally when a response arrived with a status below 400. */
  lemma OkOnlyBelow400(t: ResponseType, outcome: Outcome)
    requires Classify(t, outcome).Ok?
    ensures outcome.Received? && outcome.response.status < 400
  {
  }

  /** An error status with a JSON body raises the status's class carrying the envelope's message and job id. */
  lemma ErrorEnvelopeCarried(t: ResponseType, resp: HttpResponse)
    requires resp.status >= 400 && IsJson(resp.contentType)
    requires resp.body.Readable? && resp.body.parsed.Parsed?
    ensures Classify(t, Received(resp)) ==
              Err(Supervisor(NewError(StatusErrorKind(resp.status), resp.body.parsed.envelope.message,
                                      resp.body.parsed.envelope.jobId)))
  {
  }

  /** An error status without a JSON body raises the status's class with no message and no job id, without reading the body. */
  lemma ErrorWithoutJson(t: ResponseType, resp: HttpResponse)
    requires resp.status >= 400 && !IsJson(resp.contentType)
    ensures Classify(t, Received(resp)) == Err(Supervisor(SupervisorError(StatusErrorKind(resp.status), [], None)))
  {
  }

  /** A JSON call returns the decoded envelope, and needs a JSON Content-Type to do so. */
  lemma JsonSuccess(resp: HttpResponse)
    requires resp.status < 400
    ensures !IsJson(resp.contentType) ==>
              Classify(JsonContent, Received(resp)) ==
                Err(Supervisor(NewError(Generic, Some(NotJsonMessage(resp.status, resp.contentType)))))
    ensures IsJson(resp.contentType) && resp.body.Readable? && resp.body.parsed.Parsed? ==>
              Classify(JsonContent, Received(resp)) == Ok(resp.body.parsed.envelope)
  {
  }

  /** A TEXT call returns the body text unchanged as the envelope's data. */
  lemma TextSuccess(resp: HttpResponse)
    requires resp.status < 400 && resp.body.Readable?
    ensures Classify(TextContent, Received(resp)) == Ok(Response(OkResult, TextData(resp.body.text), None, None))
  {
  }

  /** A call expecting no content returns an empty OK envelope and never reads the body. */
  lemma EmptySuccess(resp: HttpResponse)
    requires resp.status < 400
    ensures Classify(NoContent, Received(resp)) == Ok(Response(OkResult, NoData, None, None))
  {
  }

  /**
   * An exception from the HTTP library is reclassified by the first matching
   * `except` clause: decoding or response errors, then timeouts, then other
   * client errors; anything else propagates as is.
   */
  lemma TransportFailureReclassified(t: ResponseType, c: set<ExcClass>)
    ensures var r := Classify(t, Failed(c));
      && ((UnicodeDecodeErrorClass in c || ClientResponseErrorClass in c)
            <==> r == Err(Supervisor(NewError(ResponseError, Some(UnusableResponseMessage)))))
      && ((TimeoutErrorClass in c && UnicodeDecodeErrorClass !in c && ClientResponseErrorClass !in c)
            <==> r == Err(Supervisor(NewError(Timeout, Some(TimeoutMessage)))))
      && ((ClientErrorClass in c && TimeoutErrorClass !in c && UnicodeDecodeErrorClass !in c && ClientResponseErrorClass !in c)
            <==> r == Err(Supervisor(NewError(Connection, Some(ConnectionMessage)))))
      && ((UnicodeDecodeErrorClass !in c && ClientResponseErrorClass !in c && TimeoutErrorClass !in c && ClientErrorClass !in c)
            <==> r == Err(Uncaught(c)))
  {
  }

  /**
   * The transport raises only the status classes, the generic class and the
   * three transport classes; in particular never an add-on error.
   */
  lemma RaisedKinds(t: ResponseType, outcome: Outcome)
    requires Classify(t, outcome).Err? && Classify(t, outcome).error.Supervisor?
    ensures Classify(t, outcome).error.error.kind in
              {Generic, BadRequest, Authentication, Forbidden, NotFound, ServiceUnavailable, ResponseError, Timeout, Connection}
  {
  }

  /** A status-specific error class tells which status the server answered with. */
  lemma {:induction false} ErrorKindDeterminesStatus(t: ResponseType, outcome: Outcome)
    requires Classify(t, outcome).Err? && Classify(t, outcome).error.Supervisor?
    requires CanonicalStatus(Classify(t, outcome).error.error.kind).Some?
    ensures outcome.Received?
    ensures outcome.response.status == CanonicalStatus(Classify(t, outcome).error.error.kind).value
  {
    match outcome
    case Failed(c) =>
    case Received(resp) =>
      if resp.status >= 400 {
        StatusKindInverse(StatusErrorKind(resp.status), resp.status);
      }
  }

  // ---------------------------------------------------------------------------
  // Calls and their defaults.

  /** The arguments of one `_request` call. */
  datatype Call = Call(verb: Verb, uri: string, params: Option<map<string, string>>, responseType: ResponseType,
                       json: Option<Json>, data: Option<seq<bv8>>)

  /** `get`: JSON is expected unless the caller says otherwise; no body. */
  function GetCall(uri: string, params: Option<map<string, string>> := None, responseType: ResponseType := JsonContent): Call
  {
    Call(Get, uri, params, responseType, None, None)
  }

  /** `post`: no content is expected unless the caller says otherwise. */
  function PostCall(uri: string, params: Option<map<string, string>> := None, responseType: ResponseType := NoContent,
                    json: Option<Json> := None, data: Option<seq<bv8>> := None): Call
  {
    Call(Post, uri, params, responseType, json, data)
  }

  /** `put`: always expects no content; may carry JSON but no raw data. */
  function PutCall(uri: string, params: Option<map<string, string>> := None, json: Option<Json> := None): Call
  {
    Call(Put, uri, params, NoContent, json, None)
  }

  /** `delete`: always expects no content and never carries a body. */
  function DeleteCall(uri: string, params: Option<map<string, string>> := None): Call
  {
    Call(Delete, uri, params, NoContent, None, None)
  }

  /** The defaults of the four verbs. */
  lemma CallDefaults(uri: string, params: Option<map<string, string>>, t: ResponseType, json: Option<Json>)
    ensures GetCall(uri).responseType == JsonContent && GetCall(uri, params, t).responseType == t
    ensures GetCall(uri, params, t).json.None? && GetCall(uri, params, t).data.None?
    ensures PostCall(uri).responseType == NoContent && PostCall(uri).json.None? && PostCall(uri).data.None?
    ensures PutCall(uri, params, json).responseType == NoContent && PutCall(uri, params, json).data.None?
    ensures DeleteCall(uri, params).responseType == NoContent
    ensures DeleteCall(uri, params).json.None? && DeleteCall(uri, params).data.None?
  {
  }

  /** What is handed to the HTTP session for a call. URL joining is not modelled: host and path are kept apart. */
  datatype HttpRequest = HttpRequest(verb: Verb, host: string, path: string, headers: map<string, string>,
                                     params: Option<map<string, string>>, json: Option<Json>, data: Option<seq<bv8>>,
                                     totalTimeout: int)

  /** The request issued for a call by a client with the given host, token, version and timeout. */
  function Dispatched(apiHost: string, token: string, version: string, requestTimeout: int, call: Call): (q: HttpRequest)
    ensures q.verb == call.verb && q.host == apiHost && q.path == call.uri
    ensures q.headers == Headers(version, token, call.responseType)
    ensures q.params == call.params && q.json == call.json && q.data == call.data
    ensures q.totalTimeout == requestTimeout
  {
    HttpRequest(call.verb, apiHost, call.uri, Headers(version, token, call.responseType),
                call.params, call.json, call.data, requestTimeout)
  }

  // ---------------------------------------------------------------------------
  // Session ownership.

  /** An HTTP session, opaque except for whether it has been closed. */
  class Session {
    var closed: bool

    constructor ()
      ensures !closed
    {
      closed := false;
    }

    method Close()
      modifies this
      ensures closed
    {
      closed := true;
    }
  }

  /** `_SupervisorClient`: a host, a token, a timeout, and an adopted or lazily created session. */
  class SupervisorClient {
    const apiHost: string
    const token: string
    const requestTimeout: int
    const version: string
    var session: Session?
    var closeSession: bool

    /** A client adopts the caller's session, if any, and owns none yet. */
    constructor (apiHost: string, token: string, requestTimeout: int, version: string, session: Session? := null)
      ensures this.apiHost == apiHost && this.token == token
      ensures this.requestTimeout == requestTimeout && this.version == version
      ensures this.session == session && !closeSession
    {
      this.apiHost := apiHost;
      this.token := token;
      this.requestTimeout := requestTimeout;
      this.version := version;
      this.session := session;
      this.closeSession := false;
    }

    /** A request creates and owns a session when there is none, and otherwise leaves session and ownership alone. */
    twostate predicate SessionAcquired()
      reads this
    {
      && (old(session) == null ==> session != null && fresh(session) && closeSession)
      && (old(session) != null ==> session == old(session) && closeSession == old(closeSession))
    }

    /** `_request`. */
    method Request(call: Call, outcome: Outcome) returns (r: Result<Response, Raised>, sent: HttpRequest)
      modifies this
      ensures SessionAcquired()
      ensures old(session) == null ==> session != null && !session.closed
      ensures sent == Dispatched(apiHost, token, version, requestTimeout, call)
      ensures r == Classify(call.responseType, outcome)
    {
      if session == null {
        session := new Session();
        closeSession := true;
      }
      sent := Dispatched(apiHost, token, version, requestTimeout, call);
      r := Classify(call.responseType, outcome);
    }

    /** `get`. */
    method GetRequest(uri: string, outcome: Outcome, params: Option<map<string, string>> := None,
                      responseType: ResponseType := JsonContent) returns (r: Result<Response, Raised>, sent: HttpRequest)
      modifies this
      ensures SessionAcquired()
      ensures old(session) == null ==> session != null && !session.closed
      ensures sent == Dispatched(apiHost, token, version, requestTimeout, GetCall(uri, params, responseType))
      ensures r == Classify(responseType, outcome)
    {
      r, sent := Request(GetCall(uri, params, responseType), outcome);
    }

    /** `post`. */
    method PostRequest(uri: string, outcome: Outcome, params: Option<map<string, string>> := None,
                       responseType: ResponseType := NoContent, json: Option<Json> := None,
                       data: Option<seq<bv8>> := None) returns (r: Result<Response, Raised>, sent: HttpRequest)
      modifies this
      ensures SessionAcquired()
      ensures old(session) == null ==> session != null && !session.closed
      ensures sent == Dispatched(apiHost, token, version, requestTimeout, PostCall(uri, params, responseType, json, data))
      ensures r == Classify(responseType, outcome)
    {
      r, sent := Request(PostCall(uri, params, responseType, json, data), outcome);
    }

    /** `put`. */
    method PutRequest(uri: string, outcome: Outcome, params: Option<map<string, string>> := None,
                      json: Option<Json> := None) returns (r: Result<Response, Raised>, sent: HttpRequest)
      modifies this
      ensures SessionAcquired()
      ensures old(session) == null ==> session != null && !session.closed
      ensures sent == Dispatched(apiHost, token, version, requestTimeout, PutCall(uri, params, json))
      ensures r == Classify(NoContent, outcome)
    {
      r, sent := Request(PutCall(uri, params, json), outcome);
    }

    /** `delete`. */
    method DeleteRequest(uri: string, outcome: Outcome, params: Option<map<string, string>> := None)
      returns (r: Result<Response, Raised>, sent: HttpRequest)
      modifies this
      ensures SessionAcquired()
      ensures old(session) == null ==> session != null && !session.closed
      ensures sent == Dispatched(apiHost, token, version, requestTimeout, DeleteCall(uri, params))
      ensures r == Classify(NoContent, outcome)
    {
      r, sent := Request(DeleteCall(uri, params), outcome);
    }

    /** `close`: closes the session only when there is one and this client created it. */
    method Close()
      modifies if session != null && closeSession then {session} else {}
      ensures session != null && closeSession ==> session.closed
    {
      if session != null && closeSession {
        session.Close();
      }
    }
  }

  /** A session the caller supplied is still open after requests and `close`. */
  method CallerSessionStaysOpen(s: Session, outcome: Outcome) returns (r: Result<Response, Raised>)
    requires !s.closed
    ensures !s.closed
    ensures r == Classify(JsonContent, outcome)
  {
    var client := new SupervisorClient("http://supervisor", "abc123", 10, "1.0", s);
    var sent;
    r, sent := client.GetRequest("info", outcome);
    client.Close();
  }

  /** A session the client created on its first request is closed by `close`. */
  method OwnedSessionClosed(outcome: Outcome) returns (client: SupervisorClient)
    ensures client.session != null && client.closeSession && client.session.closed
  {
    client := new SupervisorClient("http://supervisor", "abc123", 10, "1.0");
    var r, sent := client.GetRequest("info", outcome);
    client.Close();
  }
}
