/** The request path of the wsapi layer: the session is attached only under
    `/wsapi`, the CSRF guard screens every POST, and the dispatch middleware
    resolves `/wsapi/<operation>` against the registry, applies the
    authentication gate, validates the arguments and only then runs the
    operation's `process`. Denials are result values. */
module Router {
  import opened Common
  import opened Sessions
  import opened Registry

  /** The prefix that decides whether a session is attached and where POSTs
      may go (the regular expression `/^\/wsapi/`). */
  const SessionPrefix := "/wsapi"
  /** WSAPI_PREFIX, the prefix of a dispatched operation's path. */
  const ApiPrefix := "/wsapi/"

  /** An incoming request: its method as sent, its url, the pathname that
      `url.parse` finds in the url, and the `csrf` field of the parsed body. */
  datatype Request = Request(httpMethod: string, url: string, pathname: string, bodyCsrf: Option<string>)

  /** How a request leaves the layer. `Next` hands it to the next middleware;
      `BadRequest` is `httputils.badRequest` with its reason; `ArgsRejected`
      is the argument validator's own error reply; `Processed` means the
      operation's `process` ran; `ServerError` is an exception thrown out of
      the middleware. */
  datatype Outcome =
    | Next
    | BadRequest(reason: string)
    | ArgsRejected(operation: string)
    | Processed(operation: string)
    | ServerError

  /** The outcome with the session as the layer leaves it (None when no
      session was attached). */
  datatype Served = Served(outcome: Outcome, session: Option<Fields>)

  /** The condition under which the CSRF middleware sets `denied`. */
  predicate CsrfViolation(req: Request, session: Option<Fields>) {
    && req.httpMethod == "POST"
    && (|| !StartsWith(req.url, SessionPrefix)
        || session.None?
        || CsrfKey !in session.value
        || !session.value[CsrfKey].Str?
        || req.bodyCsrf != Some(session.value[CsrfKey].s))
  }

  /** Where the dispatch middleware sends a pathname. */
  datatype Route = NotApi | NoSuchApi | Found(operation: string, api: Api)

  function RouteOf(pathname: string, httpMethod: string, t: Table): Route
  {
    if !StartsWith(pathname, ApiPrefix) then NotApi
    else
      var operation := pathname[|ApiPrefix|..];
      if operation in t && Lower(t[operation].httpMethod) == Lower(httpMethod) then Found(operation, t[operation])
      else NoSuchApi
  }

  /** The argument validator, then `process`. `accepts` is the verdict of the
      external `validate` module on the request for the given argument names. */
  function Validated(operation: string, v: Validator, accepts: seq<string> -> bool): Outcome
  {
    match v
    case Continue => Processed(operation)
    case Check(names) => if accepts(names) then Processed(operation) else ArgsRejected(operation)
  }

  /** The reference definition of the dispatch middleware. With no session
      attached, `isAuthed` fails reading it and then again clearing it, and the
      second exception escapes. */
  function Dispatch(req: Request, session: Option<Fields>, t: Table, now: int, duration: int,
                    accepts: seq<string> -> bool): Served
  {
    match RouteOf(req.pathname, req.httpMethod, t)
    case NotApi => Served(Next, session)
    case NoSuchApi => Served(BadRequest("no such api"), session)
    case Found(operation, api) =>
      if api.authed then
        match session
        case None => Served(ServerError, None)
        case Some(m) =>
          var v := AuthCheck(m, now, duration);
          if v.who.None? then Served(BadRequest("requires authentication"), Some(v.fields))
          else Served(Validated(operation, api.validator, accepts), Some(v.fields))
      else
        Served(Validated(operation, api.validator, accepts), session)
  }

  /** The session the cookie middleware attaches: only under `/wsapi`. */
  function Attached(req: Request, cookie: Fields): Option<Fields> {
    if StartsWith(req.url, SessionPrefix) then Some(cookie) else None
  }

  /** The reference definition of the whole layer for one request. */
  function Serve(req: Request, cookie: Fields, t: Table, now: int, duration: int,
                 accepts: seq<string> -> bool): Served
  {
    var session := Attached(req, cookie);
    if CsrfViolation(req, session) then Served(BadRequest("CSRF violation"), session)
    else Dispatch(req, session, t, now, duration, accepts)
  }

  function FieldsOf(s: Session?): Option<Fields>
    reads s
  {
    if s == null then None else Some(s.fields)
  }

  /** The CSRF middleware, which sets `denied` condition by condition. */
  method CsrfGuard(req: Request, session: Session?) returns (denied: bool)
    ensures denied == CsrfViolation(req, FieldsOf(session))
  {
    denied := false;
    if req.httpMethod == "POST" {
      if !StartsWith(req.url, SessionPrefix) {
        denied := true;
      } else if session == null {
        denied := true;
      } else if CsrfKey !in session.fields || !session.fields[CsrfKey].Str? {
        denied := true;
      } else if req.bodyCsrf != Some(session.fields[CsrfKey].s) {
        denied := true;
      }
    }
  }

  /** The dispatch middleware, running `isAuthed` on the session object. */
  method DispatchRequest(req: Request, session: Session?, t: Table, now: int, duration: int,
                         accepts: seq<string> -> bool) returns (out: Outcome)
    modifies session
    ensures Served(out, FieldsOf(session)) == Dispatch(req, old(FieldsOf(session)), t, now, duration, accepts)
  {
    if StartsWith(req.pathname, ApiPrefix) {
      var operation := req.pathname[|ApiPrefix|..];
      if operation in t && Lower(t[operation].httpMethod) == Lower(req.httpMethod) {
        var api := t[operation];
        if api.authed {
          if session == null {
            return ServerError;
          }
          var who := session.IsAuthed(now, duration);
          if who.None? {
            return BadRequest("requires authentication");
          }
        }
        match api.validator
        case Continue => out := Processed(operation);
        case Check(names) =>
          out := if accepts(names) then Processed(operation) else ArgsRejected(operation);
      } else {
        out := BadRequest("no such api");
      }
    } else {
      out := Next;
    }
  }

  /** One request through the layer: attach the session decoded from the
      cookie, screen POSTs, dispatch; returns the outcome and the session that
      is written back into the cookie. */
  method HandleRequest(req: Request, cookie: Fields, t: Table, now: int, duration: int,
                       accepts: seq<string> -> bool) returns (out: Outcome, persisted: Option<Fields>)
    ensures Served(out, persisted) == Serve(req, cookie, t, now, duration, accepts)
  {
    var session: Session? := null;
    if StartsWith(req.url, SessionPrefix) {
      session := new Session(cookie);
    }
    var denied := CsrfGuard(req, session);
    if denied {
      out := BadRequest("CSRF violation");
    } else {
      out := DispatchRequest(req, session, t, now, duration, accepts);
    }
    persisted := FieldsOf(session);
  }

  /** Every gate a request passes on its way to `process`. */
  predicate Admitted(req: Request, cookie: Fields, t: Table, now: int, duration: int,
                     accepts: seq<string> -> bool, operation: string)
  {
    && !CsrfViolation(req, Attached(req, cookie))
    && StartsWith(req.pathname, ApiPrefix)
    && operation == req.pathname[|ApiPrefix|..]
    && operation in t
    && Lower(t[operation].httpMethod) == Lower(req.httpMethod)
    && (t[operation].authed ==> StartsWith(req.url, SessionPrefix) && Current(cookie, now, duration))
    && (t[operation].validator.Check? ==> accepts(t[operation].validator.names))
  }

  /** `process` runs for an operation exactly when the request passes the CSRF
      guard, names a registered operation with the same method up to case,
      holds a current sign-in if the operation needs one, and has its
      arguments accepted. */
  lemma ProcessedIff(req: Request, cookie: Fields, t: Table, now: int, duration: int,
                     accepts: seq<string> -> bool, operation: string)
    ensures Serve(req, cookie, t, now, duration, accepts).outcome == Processed(operation) <==>
              Admitted(req, cookie, t, now, duration, accepts, operation)
  {
    AuthCheckIff(cookie, now, duration);
  }

  /** A POST whose body token differs from the session's token is refused by
      the CSRF guard, before the session is touched. */
  lemma TokenMismatchDenied(req: Request, cookie: Fields, t: Table, now: int, duration: int,
                            accepts: seq<string> -> bool, token: string)
    requires req.httpMethod == "POST" && StartsWith(req.url, SessionPrefix)
    requires CsrfKey in cookie && cookie[CsrfKey].Str? && cookie[CsrfKey].s == token && req.bodyCsrf != Some(token)
    ensures Serve(req, cookie, t, now, duration, accepts) == Served(BadRequest("CSRF violation"), Some(cookie))
  {
  }

  /** A POST outside `/wsapi` is refused whatever token it carries, and no
      session is attached to it. */
  lemma PostOutsideApiDenied(req: Request, cookie: Fields, t: Table, now: int, duration: int,
                             accepts: seq<string> -> bool)
    requires req.httpMethod == "POST" && !StartsWith(req.url, SessionPrefix)
    ensures Serve(req, cookie, t, now, duration, accepts) == Served(BadRequest("CSRF violation"), None)
  {
  }

  /** A POST under `/wsapi` passes the CSRF guard exactly when the session
      holds a string token and the body carries that same token. */
  lemma CsrfPassIff(req: Request, cookie: Fields)
    requires req.httpMethod == "POST" && StartsWith(req.url, SessionPrefix)
    ensures !CsrfViolation(req, Attached(req, cookie)) <==>
              CsrfKey in cookie && cookie[CsrfKey].Str? && req.bodyCsrf == Some(cookie[CsrfKey].s)
  {
  }

  /** The CSRF guard never refuses a request whose method is not exactly
      "POST". */
  lemma NonPostNotScreened(req: Request, session: Option<Fields>)
    requires req.httpMethod != "POST"
    ensures !CsrfViolation(req, session)
  {
  }

  /** An authenticated operation requested without a current sign-in is
      refused and `process` does not run. The session written back is the
      one `isAuthed` leaves: untouched when no user was signed in, cleared to
      its `csrf` token when the sign-in was stale. */
  lemma SignInRequiredDenied(req: Request, cookie: Fields, t: Table, now: int, duration: int,
                             accepts: seq<string> -> bool)
    requires !CsrfViolation(req, Attached(req, cookie)) && StartsWith(req.url, SessionPrefix)
    requires RouteOf(req.pathname, req.httpMethod, t).Found? && RouteOf(req.pathname, req.httpMethod, t).api.authed
    requires !Current(cookie, now, duration)
    ensures Serve(req, cookie, t, now, duration, accepts) ==
              Served(BadRequest("requires authentication"), Some(AuthCheck(cookie, now, duration).fields))
    ensures !(UserKey in cookie && Truthy(cookie[UserKey])) ==>
              Serve(req, cookie, t, now, duration, accepts) == Served(BadRequest("requires authentication"), Some(cookie))
    ensures UserKey in cookie && Truthy(cookie[UserKey]) ==>
              Serve(req, cookie, t, now, duration, accepts) ==
                Served(BadRequest("requires authentication"), Some(Cleared(cookie)))
  {
    AuthCheckIff(cookie, now, duration);
  }

  /** An operation whose module declares no `args` runs `process` whatever
      the request carries. */
  lemma NoArgsAlwaysProcessed(operation: string, m: Module, accepts: seq<string> -> bool)
    requires m.args.Missing?
    ensures Validated(operation, ApiOf(m).validator, accepts) == Processed(operation)
  {
  }

  /** An operation whose module declares `args` runs `process` exactly when
      the validator accepts the request for those names, and otherwise leaves
      the reply to the validator. */
  lemma NamedArgsCheckedIff(operation: string, m: Module, accepts: seq<string> -> bool)
    requires m.args.Names?
    ensures Validated(operation, ApiOf(m).validator, accepts) == Processed(operation) <==> accepts(m.args.names)
    ensures !accepts(m.args.names) ==> Validated(operation, ApiOf(m).validator, accepts) == ArgsRejected(operation)
  {
  }

  /** A token that happens to read as a date is still a string: a POST whose
      body carries the session's token passes the guard. */
  lemma DateStringTokenPasses(req: Request, cookie: Fields, t: int)
    requires req.httpMethod == "POST" && StartsWith(req.url, SessionPrefix)
    requires CsrfKey in cookie && cookie[CsrfKey] == Str("2011-10-14", Ms(t))
    requires req.bodyCsrf == Some("2011-10-14")
    ensures !CsrfViolation(req, Attached(req, cookie))
  {
  }


  /** An unknown operation and a known one asked for with the wrong method get
      the same reply, and the session is left as it was. */
  lemma UnknownAndWrongMethodAlike(req: Request, cookie: Fields, t: Table, now: int, duration: int,
                                   accepts: seq<string> -> bool)
    requires !CsrfViolation(req, Attached(req, cookie)) && StartsWith(req.pathname, ApiPrefix)
    requires req.pathname[|ApiPrefix|..] !in t
             || Lower(t[req.pathname[|ApiPrefix|..]].httpMethod) != Lower(req.httpMethod)
    ensures Serve(req, cookie, t, now, duration, accepts) == Served(BadRequest("no such api"), Attached(req, cookie))
  {
  }

  /** A request outside the operation namespace that the CSRF guard lets
      through is handed on untouched. */
  lemma OtherPathsPassThrough(req: Request, cookie: Fields, t: Table, now: int, duration: int,
                              accepts: seq<string> -> bool)
    requires !CsrfViolation(req, Attached(req, cookie)) && !StartsWith(req.pathname, ApiPrefix)
    ensures Serve(req, cookie, t, now, duration, accepts) == Served(Next, Attached(req, cookie))
  {
  }

  /** The guard compares the method case-sensitively while dispatch ignores
      case: a request whose method reads "post" in lower case is not screened
      and still reaches a POST operation, with any token or none. This holds
      of the layer's own tests for any method string; whether a lower-case
      method can reach the layer at all is up to Node's HTTP parser, which is
      not part of this model. */
  lemma LowerCasePostNotScreened(req: Request, cookie: Fields, t: Table, now: int, duration: int,
                                 accepts: seq<string> -> bool)
    requires req.httpMethod == "post" && StartsWith(req.pathname, ApiPrefix)
    requires req.pathname[|ApiPrefix|..] in t
    requires t[req.pathname[|ApiPrefix|..]] == Api("post", false, true, Continue)
    ensures Serve(req, cookie, t, now, duration, accepts).outcome == Processed(req.pathname[|ApiPrefix|..])
  {
    assert Lower("post") == "post";
  }
}
