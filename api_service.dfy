/** The HTTP client of the front end: the fixed headers, the request each
    operation sends, and `handleApiError`, which turns every non-2xx reply
    into an `Error` whose message names only the status. The transport
    (`fetch`) is a parameter: it either fails or yields a response. */
module ApiService {
  import opened Wrappers
  import opened JsText
  import JsonServer

  const ApiUrl: string := "http://localhost:3001"

  /** `defaultHeaders`. */
  const DefaultHeaders: map<string, string> := map[
    "Content-Type" := "application/json",
    "Authorization" := "Bearer fake-jwt-token"
  ]

  // ---------------------------------------------------------------------
  // Values crossing the transport
  // ---------------------------------------------------------------------

  /** A thrown value: an `Error` with its message, or anything else. */
  datatype Thrown = ErrorValue(message: string) | NonErrorValue

  /** A settled promise. */
  datatype Promise<+T> = Resolved(value: T) | Rejected(reason: Thrown)

  /** A response body as `response.json()` sees it: a decoded document
      (kept as its source text) or text that does not parse, with the
      message of the `SyntaxError` that parsing throws. */
  datatype HttpBody = Parsed(doc: string) | Unparsable(syntaxError: string)

  datatype HttpResponse = HttpResponse(status: nat, body: HttpBody)

  /** `response.ok`: the status is in the 2xx range. */
  predicate IsOk(r: HttpResponse) {
    200 <= r.status <= 299
  }

  /** What `fetch` settles with. */
  datatype Transport = NetworkFailure(error: Thrown) | Received(response: HttpResponse)

  /** The value an operation resolves with: a decoded document, or nothing
      (`deleteTask`). */
  datatype ApiValue = Doc(doc: string) | NoValue

  // ---------------------------------------------------------------------
  // handleApiError
  // ---------------------------------------------------------------------

  /** `Erreur API: <status>`. */
  function StatusMessage(status: nat): string {
    "Erreur API: " + NatToString(status)
  }

  /** `handleApiError`: an ok response is passed on; any other is rejected.
      Whatever the body holds, the error raised inside the `try` is caught
      and replaced by one naming only the status. */
  function HandleApiError(r: HttpResponse): (p: Promise<HttpResponse>)
    ensures IsOk(r) <==> p.Resolved?
    ensures p.Resolved? ==> p.value == r
    ensures p.Rejected? ==> p.reason == ErrorValue(StatusMessage(r.status))
  {
    if !IsOk(r) then Rejected(ErrorValue(StatusMessage(r.status))) else Resolved(r)
  }

  /** The rejection depends on the status alone, never on the body. */
  lemma RejectionIgnoresBody(r1: HttpResponse, r2: HttpResponse)
    requires r1.status == r2.status && !IsOk(r1)
    ensures HandleApiError(r1) == HandleApiError(r2)
  {
  }

  /** The rejection message gives the status back: its text after
      `Erreur API: ` is the status's decimal digits. */
  lemma RejectionNamesStatus(r: HttpResponse)
    requires !IsOk(r)
    ensures var m := HandleApiError(r).reason.message;
      |m| > 12 && m[..12] == "Erreur API: " && DigitsValue(m[12..]) == r.status
  {
    var m := StatusMessage(r.status);
    assert m[12..] == NatToString(r.status);
    NatToStringRoundTrip(r.status);
  }

  /** Different error statuses give different messages. */
  lemma RejectionsDistinguishStatuses(r1: HttpResponse, r2: HttpResponse)
    requires !IsOk(r1) && !IsOk(r2) && r1.status != r2.status
    ensures HandleApiError(r1).reason != HandleApiError(r2).reason
  {
    RejectionNamesStatus(r1);
    RejectionNamesStatus(r2);
  }

  // ---------------------------------------------------------------------
  // The operations
  // ---------------------------------------------------------------------

  /** The six operations; `payload` is the request body as
      `JSON.stringify` spells it. */
  datatype Operation =
    | GetTasks
    | GetTask(id: int)
    | CreateTask(payload: string)
    | UpdateTask(id: int, payload: string)
    | DeleteTask(id: int)
    | GetUsers

  datatype HttpRequest = HttpRequest(verb: string, path: string, headers: map<string, string>, body: Option<string>)

  /** The request each operation sends, relative to `ApiUrl`. */
  function RequestFor(op: Operation): HttpRequest {
    match op
    case GetTasks => HttpRequest("GET", "/tasks", DefaultHeaders, None)
    case GetTask(id) => HttpRequest("GET", "/tasks/" + IntToString(id), DefaultHeaders, None)
    case CreateTask(payload) => HttpRequest("POST", "/tasks", DefaultHeaders, Some(payload))
    case UpdateTask(id, payload) => HttpRequest("PUT", "/tasks/" + IntToString(id), DefaultHeaders, Some(payload))
    case DeleteTask(id) => HttpRequest("DELETE", "/tasks/" + IntToString(id), DefaultHeaders, None)
    case GetUsers => HttpRequest("GET", "/users", DefaultHeaders, None)
  }

  /** `ApiUrl + path`. */
  function Url(op: Operation): string {
    ApiUrl + RequestFor(op).path
  }

  /** One operation given what `fetch` settled with: transport failures and
      `handleApiError` rejections are rethrown unchanged; an ok response is
      decoded, except by `deleteTask`, which resolves with nothing. */
  function Call(op: Operation, t: Transport): (p: Promise<ApiValue>)
    ensures t.NetworkFailure? ==> p == Rejected(t.error)
    ensures t.Received? && !IsOk(t.response) ==> p == Rejected(ErrorValue(StatusMessage(t.response.status)))
    ensures p.Resolved? ==> t.Received? && IsOk(t.response)
    ensures op.DeleteTask? && t.Received? && IsOk(t.response) ==> p == Resolved(NoValue)
    ensures !op.DeleteTask? && t.Received? && IsOk(t.response) ==>
      p == (match t.response.body
            case Parsed(doc) => Resolved(Doc(doc))
            case Unparsable(msg) => Rejected(ErrorValue(msg)))
  {
    match t
    case NetworkFailure(e) => Rejected(e)
    case Received(resp) =>
      match HandleApiError(resp)
      case Rejected(e) => Rejected(e)
      case Resolved(_) =>
        if op.DeleteTask? then Resolved(NoValue)
        else
          match resp.body
          case Parsed(doc) => Resolved(Doc(doc))
          case Unparsable(msg) => Rejected(ErrorValue(msg))
  }

  /** Every request carries the JSON content type and a Bearer token. */
  lemma HeadersCarryBearer(op: Operation)
    ensures var h := RequestFor(op).headers;
      && "Content-Type" in h && h["Content-Type"] == "application/json"
      && "Authorization" in h && "Bearer " <= h["Authorization"]
  {
  }

  /** The routing table: method and path of each operation. */
  lemma RoutingTable(id: int, payload: string)
    ensures RequestFor(GetTasks).verb == "GET" && Url(GetTasks) == "http://localhost:3001/tasks"
    ensures RequestFor(GetTask(id)).verb == "GET" && Url(GetTask(id)) == "http://localhost:3001/tasks/" + IntToString(id)
    ensures RequestFor(CreateTask(payload)).verb == "POST" && Url(CreateTask(payload)) == "http://localhost:3001/tasks"
    ensures RequestFor(UpdateTask(id, payload)).verb == "PUT"
         && Url(UpdateTask(id, payload)) == "http://localhost:3001/tasks/" + IntToString(id)
    ensures RequestFor(DeleteTask(id)).verb == "DELETE"
         && Url(DeleteTask(id)) == "http://localhost:3001/tasks/" + IntToString(id)
    ensures RequestFor(GetUsers).verb == "GET" && Url(GetUsers) == "http://localhost:3001/users"
    ensures RequestFor(CreateTask(payload)).body == Some(payload) && RequestFor(UpdateTask(id, payload)).body == Some(payload)
  {
  }

  /** The server's authentication middleware lets every request of the
      client through, since the fixed token starts with `Bearer `. */
  lemma ClientPassesServerAuth(op: Operation, body: Option<JsonServer.Body>)
    ensures var rq := RequestFor(op);
      JsonServer.Authenticate(JsonServer.Request(rq.verb, rq.path, body, Some(rq.headers["Authorization"]))) == JsonServer.Next
  {
  }

  /** The server validates the fields of a creation only: a creation is the
      one request for `POST /tasks`, and every other operation, updates
      included, passes the validation whatever body it finds. */
  lemma OnlyCreateIsValidated(op: Operation, body: Option<JsonServer.Body>, seen: Option<JsonServer.Body>)
    ensures var rq := RequestFor(op);
      op.CreateTask? <==> rq.verb == "POST" && rq.path == "/tasks"
    ensures var rq := RequestFor(op);
      !op.CreateTask? ==> JsonServer.Validate(JsonServer.Request(rq.verb, rq.path, body, Some(rq.headers["Authorization"])), seen) == JsonServer.Next
  {
  }
}
