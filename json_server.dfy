/** The mock REST server's request handling: the middleware chain in
    registration order (field validation of task creation, then the
    Bearer-token check, then the body parsers and the persistence router),
    and the error handler that turns anything thrown on the way into a
    generic 500. Since the body is parsed only after the validation, the
    chain as configured is set beside the one that parses it first. */
module JsonServer {
  import opened Wrappers
  import opened JsText

  /** A field of the request body as the validation sees it: a falsy value
      (`undefined`, `null`, `0`, `false`, ...), a string, or a truthy value
      that is not a string (and so has no `trim`). */
  datatype BodyField = Falsy | Text(s: string) | TruthyNonString

  datatype Body = Body(title: BodyField, description: BodyField)

  /** `req.method` (here `verb`), `req.path`, the JSON body the client sent
      as a parser decodes it (`None` when none was sent) and the
      `authorization` header. */
  datatype Request = Request(
    verb: string,
    path: string,
    body: Option<Body>,
    authorization: Option<string>)

  /** A JSON error reply of one of the middlewares, or whatever reply the
      router produced. */
  datatype Response =
    | ErrorReply(status: nat, error: string, message: string)
    | RouterReply(routerStatus: nat)

  /** What a middleware does: call `next()`, reply early, or throw. */
  datatype Step = Next | Reply(response: Response) | Throw

  /** How the downstream middlewares and the router end. */
  datatype Downstream = Responds(status: nat) | Fails

  const TitleRequired: Response := ErrorReply(400, "Validation Error", "Le titre de la tâche est requis")
  const DescriptionRequired: Response := ErrorReply(400, "Validation Error", "La description de la tâche est requise")
  const Unauthorized: Response := ErrorReply(401, "Unauthorized", "Authentification requise")
  const ServerError: Response := ErrorReply(500, "Server Error", "Une erreur est survenue sur le serveur")

  /** `!v || v.trim() === ''`, which throws for a truthy non-string. */
  function Blank(v: BodyField): Option<bool> {
    match v
    case Falsy => Some(true)
    case Text(s) => Some(s == "" || Trim(s) == "")
    case TruthyNonString => None
  }

  /** The validation middleware, given `req.body` as it stands when it runs
      (`seen`): only `POST /tasks` is checked; a blank title is reported
      first, then a blank description. Destructuring an unset body or
      trimming a non-string throws. */
  function Validate(req: Request, seen: Option<Body>): Step {
    if req.verb == "POST" && req.path == "/tasks" then
      match seen
      case None => Throw
      case Some(b) =>
        match Blank(b.title)
        case None => Throw
        case Some(true) => Reply(TitleRequired)
        case Some(false) =>
          match Blank(b.description)
          case None => Throw
          case Some(true) => Reply(DescriptionRequired)
          case Some(false) => Next
    else Next
  }

  /** `authHeader` is truthy and starts with `'Bearer '`. */
  predicate HasBearer(auth: Option<string>) {
    auth.Some? && auth.value != "" && "Bearer " <= auth.value
  }

  /** The authentication middleware: every method but `GET` needs a Bearer
      token. */
  function Authenticate(req: Request): Step {
    if req.verb != "GET" && !HasBearer(req.authorization) then Reply(Unauthorized) else Next
  }

  /** The chain from the validation middleware to the error handler, with
      `seen` as the body the validation finds; the logging middleware and
      the fixed delay only call `next()`. */
  function Chain(req: Request, seen: Option<Body>, downstream: Downstream): (r: Response)
    ensures r.ErrorReply? ==> r.status in {400, 401, 500}
    ensures r.RouterReply? <==> Validate(req, seen) == Next && Authenticate(req) == Next && downstream.Responds?
  {
    match Validate(req, seen)
    case Throw => ServerError
    case Reply(resp) => resp
    case Next =>
      match Authenticate(req)
      case Throw => ServerError
      case Reply(resp) => resp
      case Next =>
        match downstream
        case Fails => ServerError
        case Responds(s) => RouterReply(s)
  }

  /** The server as configured. The body parsers (`jsonServer.defaults()`
      and the router's own) are mounted after the validation, so it finds
      `req.body` unset: every task creation throws into the generic 500, no
      reply is ever 400, and every other request is served as if the body
      had been parsed first. */
  function Serve(req: Request, downstream: Downstream): (r: Response)
    ensures r.ErrorReply? ==> r.status in {401, 500}
    ensures req.verb == "POST" && req.path == "/tasks" ==> r == ServerError
    ensures !(req.verb == "POST" && req.path == "/tasks") ==> r == ServeParsedFirst(req, downstream)
  {
    Chain(req, None, downstream)
  }

  /** What a JSON body parser leaves in `req.body`: the decoded object, or
      `{}` when nothing was sent, whose fields are both `undefined`. */
  function ParsedBody(sent: Option<Body>): (b: Body)
    ensures sent.Some? ==> b == sent.value
    ensures sent.None? ==> b.title == Falsy && b.description == Falsy
  {
    if sent.Some? then sent.value else Body(Falsy, Falsy)
  }

  /** The chain evidently intended: the body is parsed before the
      validation runs, which then finds it set. */
  function ServeParsedFirst(req: Request, downstream: Downstream): (r: Response)
    ensures r.ErrorReply? ==> r.status in {400, 401, 500}
    ensures r.RouterReply? <==> Validate(req, Some(ParsedBody(req.body))) == Next && Authenticate(req) == Next && downstream.Responds?
  {
    Chain(req, Some(ParsedBody(req.body)), downstream)
  }

  // ---------------------------------------------------------------------
  // Properties of the chain
  // ---------------------------------------------------------------------

  /** As configured, a task creation fails with the generic 500 whatever
      its body, its credentials and the router. */
  lemma CreationAlwaysFails(body: Option<Body>, authorization: Option<string>, downstream: Downstream)
    ensures Serve(Request("POST", "/tasks", body, authorization), downstream)
         == ErrorReply(500, "Server Error", "Une erreur est survenue sur le serveur")
  {
  }

  /** With the body parsed first, a task creation whose title is missing,
      empty or whitespace only gets 400 with the title message, whatever its
      credentials and whatever the router would do. */
  lemma BlankTitleRejected(req: Request, downstream: Downstream)
    requires req.verb == "POST" && req.path == "/tasks"
    requires var t := ParsedBody(req.body).title; t == Falsy || (t.Text? && AllSpace(t.s))
    ensures ServeParsedFirst(req, downstream) == ErrorReply(400, "Validation Error", "Le titre de la tâche est requis")
  {
    var t := ParsedBody(req.body).title;
    if t.Text? {
      AllSpaceTrim(t.s);
    }
  }

  /** With the body parsed first, once the title passes, a missing, empty
      or whitespace-only description gets 400 with its own message. */
  lemma BlankDescriptionRejected(req: Request, downstream: Downstream)
    requires req.verb == "POST" && req.path == "/tasks"
    requires var b := ParsedBody(req.body); b.title.Text? && !AllSpace(b.title.s)
    requires var d := ParsedBody(req.body).description; d == Falsy || (d.Text? && AllSpace(d.s))
    ensures ServeParsedFirst(req, downstream) == ErrorReply(400, "Validation Error", "La description de la tâche est requise")
  {
    var b := ParsedBody(req.body);
    AllSpaceTrim(b.title.s);
    if b.description.Text? {
      AllSpaceTrim(b.description.s);
    }
  }

  /** With the body parsed first, an authorised creation reaches the router
      exactly when its title and its description are both non-blank
      strings. */
  lemma CreationAcceptedIff(body: Option<Body>, authorization: Option<string>, status: nat)
    requires HasBearer(authorization)
    ensures var b := ParsedBody(body);
      ServeParsedFirst(Request("POST", "/tasks", body, authorization), Responds(status)) == RouterReply(status)
      <==> b.title.Text? && !AllSpace(b.title.s) && b.description.Text? && !AllSpace(b.description.s)
  {
    var b := ParsedBody(body);
    if b.title.Text? {
      AllSpaceTrim(b.title.s);
    }
    if b.description.Text? {
      AllSpaceTrim(b.description.s);
    }
  }

  /** A string is blank for `trim` exactly when it is all whitespace. */
  lemma AllSpaceTrim(s: string)
    ensures (s == "" || Trim(s) == "") <==> AllSpace(s)
  {
  }

  /** Only `POST` on exactly `/tasks` is validated: an update (`PUT`) is
      never rejected for its fields, whatever its body. */
  lemma OnlyCreationValidated(req: Request, seen: Option<Body>)
    requires req.verb != "POST" || req.path != "/tasks"
    ensures Validate(req, seen) == Next
  {
  }

  /** A request the validation lets through is refused with 401 exactly
      when it is not a `GET` and carries no Bearer token; a `GET` is never
      refused for its credentials. */
  lemma AuthRule(req: Request, seen: Option<Body>, downstream: Downstream)
    requires Validate(req, seen) == Next
    ensures Chain(req, seen, downstream) == ErrorReply(401, "Unauthorized", "Authentification requise")
        <==> req.verb != "GET" && !HasBearer(req.authorization)
    ensures req.verb == "GET" ==> Chain(req, seen, downstream) != Unauthorized
  {
  }

  /** With the body parsed first, validation is still registered before
      authentication: a creation without credentials and with no body at
      all gets 400, not 401. */
  lemma ValidationBeforeAuth(req: Request, downstream: Downstream)
    requires req.verb == "POST" && req.path == "/tasks" && req.authorization.None?
    requires req.body.None? || req.body == Some(Body(Falsy, Falsy))
    ensures ServeParsedFirst(req, downstream).status == 400
  {
  }

  /** Anything thrown downstream becomes 500 with the fixed generic message,
      and so does a non-string title. */
  lemma ErrorsBecomeServerError(req: Request, seen: Option<Body>)
    requires Validate(req, seen) == Next && Authenticate(req) == Next
    ensures Chain(req, seen, Fails) == ErrorReply(500, "Server Error", "Une erreur est survenue sur le serveur")
    ensures ServeParsedFirst(req.(verb := "POST", path := "/tasks", body := Some(Body(TruthyNonString, Falsy))), Responds(201))
         == ErrorReply(500, "Server Error", "Une erreur est survenue sur le serveur")
  {
  }

  /** An authorised request that passes validation gets the router's reply. */
  lemma AcceptedReachesRouter(req: Request, seen: Option<Body>, status: nat)
    requires Validate(req, seen) == Next
    requires req.verb == "GET" || HasBearer(req.authorization)
    ensures Chain(req, seen, Responds(status)) == RouterReply(status)
  {
  }
}
