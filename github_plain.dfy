/** The GitHub integration Cloud Function that stores the access token as is
    (functions/github_integration/main.py). It has no `after_request` hook: each view passes its
    answer through `_add_cors_headers`, which takes exactly one argument. The connect, status and
    disconnect views also call it with a second argument (the status), which raises `TypeError`
    outside any handler that could catch it, so Flask answers with its own 500 page. The routes
    are modelled both as written and as evidently intended; `Handle` uses the intended ones. */
module GitHubPlain {
  import opened Wrappers
  import opened Json
  import opened PyHttp
  import opened DocumentStore
  import opened GitHubAccount

  const ConnectPath := "/api/v1/github/connect"
  const StatusPath := "/api/v1/github/status"
  const DisconnectPath := "/api/v1/github/disconnect"

  /** What a view hands `_add_cors_headers`: a response object, or a `(body, status)` or
      `(body, status, headers)` tuple. */
  datatype ViewValue =
    | Response(reply: Reply)
    | Pair(body: Payload, status: int)
    | Triple(body: Payload, status: int, headers: map<string, string>)

  /** `_add_cors_headers`: the value made a response, the four CORS headers set on it, and the
      status forced to 204 for a preflight. */
  function AddCorsHeaders(v: ViewValue, allowedOrigins: string, httpMethod: string): (r: Reply)
    ensures r.headers.Keys >= CorsHeaderNames && r.headers["Access-Control-Allow-Origin"] == allowedOrigins
    ensures httpMethod == "OPTIONS" ==> r.status == 204
    ensures httpMethod != "OPTIONS" && v.Response? ==> r.status == v.reply.status
    ensures httpMethod != "OPTIONS" && !v.Response? ==> r.status == v.status
    ensures r.payload == (if v.Response? then v.reply.payload else v.body)
  {
    var base := match v
      case Response(x) => x
      case Pair(body, status) => Reply(status, body, map[])
      case Triple(body, status, headers) => Reply(status, body, headers);
    var c := WithCors(base, allowedOrigins, AllowedHeaders);
    if httpMethod == "OPTIONS" then c.(status := 204) else c
  }

  /** A call of `_add_cors_headers` as the views make it: with its one argument, or with a second
      one. */
  datatype CorsCall = OneArg(v: ViewValue) | TwoArgs(v: ViewValue, extra: int)

  /** The call's result, or `None` when it raises `TypeError` (every two-argument call). */
  function CallAddCors(c: CorsCall, allowedOrigins: string, httpMethod: string): (r: Option<Reply>)
    ensures r.None? <==> c.TwoArgs?
    ensures r.Some? ==> r.value == AddCorsHeaders(c.v, allowedOrigins, httpMethod)
  {
    match c
    case OneArg(v) => Some(AddCorsHeaders(v, allowedOrigins, httpMethod))
    case TwoArgs(_, _) => None
  }

  /** A view that returns the call's result: an exception escapes to Flask. */
  function Answer(c: CorsCall, allowedOrigins: string, httpMethod: string): Reply {
    match CallAddCors(c, allowedOrigins, httpMethod)
    case Some(r) => r
    case None => UncaughtError()
  }

  /** A view that returns the call's result inside `try`: an exception runs the handler's call. */
  function Guarded(c: CorsCall, handler: CorsCall, allowedOrigins: string, httpMethod: string): Reply {
    match CallAddCors(c, allowedOrigins, httpMethod)
    case Some(r) => r
    case None => Answer(handler, allowedOrigins, httpMethod)
  }

  /** `jsonify(value)`: a 200 JSON response. */
  function Jsonify(value: Json): Reply {
    JsonReply(200, value)
  }

  // ---------------------------------------------------------------- the views as written

  /** The connect view as written: each refusal is a two-argument call; the redirect is not. */
  function ConnectRouteAsWritten(caller: Option<Json>, cfg: Config, httpMethod: string): (r: Reply)
    requires httpMethod != "OPTIONS"
    // Every refusal escapes as Flask's 500 page; the redirect is answered as intended.
    ensures Connect(caller, cfg).ConnectRefused? ==> r == UncaughtError()
    ensures Connect(caller, cfg).AuthorizeAt? ==> r == ConnectRoute(caller, cfg, httpMethod)
  {
    match Connect(caller, cfg)
    case ConnectRefused(status, message) => Answer(TwoArgs(Response(Jsonify(ErrorBody(message))), status), cfg.allowedOrigins, httpMethod)
    case AuthorizeAt(url) => Answer(OneArg(Response(RedirectReply(url))), cfg.allowedOrigins, httpMethod)
  }

  /** The status view as written: every answer, including the one in its `except` handler, is a
      two-argument call. */
  function StatusRouteAsWritten(docs: map<string, Doc>, caller: Option<Json>, cfg: Config, storeDown: bool, httpMethod: string): (r: Reply)
    requires httpMethod != "OPTIONS"
    ensures caller.None? ==> r == UncaughtError()
  {
    var handler := TwoArgs(Response(Jsonify(ErrorBody(StatusFailed))), 500);
    match caller
    case None => Answer(TwoArgs(Response(Jsonify(ErrorBody(AuthRequired))), 401), cfg.allowedOrigins, httpMethod)
    case Some(userId) =>
      var s := GitHubAccount.StatusAsWritten(docs, userId, storeDown);
      if s.status != 200 then Answer(handler, cfg.allowedOrigins, httpMethod)
      else Guarded(TwoArgs(Response(Jsonify(s.payload.value)), 200), handler, cfg.allowedOrigins, httpMethod)
  }

  /** The disconnect view as written: the update is made, then the answer's two-argument call
      raises, and so does its handler's. */
  function DisconnectRouteAsWritten(docs: map<string, Doc>, caller: Option<Json>, cfg: Config, storeDown: bool,
                                    stamp: string, httpMethod: string): (r: (Reply, map<string, Doc>))
    requires httpMethod != "OPTIONS"
    ensures caller.None? ==> r == (UncaughtError(), docs)
    // The store is written before the answer fails.
    ensures caller.Some? ==> r.0 == UncaughtError()
    ensures caller.Some? ==> r.1 == GitHubAccount.DisconnectAsWritten(docs, caller.value, storeDown, stamp).1
  {
    var handler := TwoArgs(Response(Jsonify(ErrorBody(DisconnectFailed))), 500);
    match caller
    case None => (Answer(TwoArgs(Response(Jsonify(ErrorBody(AuthRequired))), 401), cfg.allowedOrigins, httpMethod), docs)
    case Some(userId) =>
      var (answer, after) := GitHubAccount.DisconnectAsWritten(docs, userId, storeDown, stamp);
      if answer.status != 200 then (Answer(handler, cfg.allowedOrigins, httpMethod), after)
      else (Guarded(TwoArgs(Response(Jsonify(answer.payload.value)), 200), handler, cfg.allowedOrigins, httpMethod), after)
  }

  /** As written, the status view never answers anything but Flask's 500 page, without CORS
      headers, whatever the caller and the store hold. */
  lemma StatusAsWrittenAlwaysFails(docs: map<string, Doc>, caller: Option<Json>, cfg: Config, storeDown: bool, httpMethod: string)
    requires httpMethod != "OPTIONS"
    ensures StatusRouteAsWritten(docs, caller, cfg, storeDown, httpMethod) == UncaughtError()
  {
  }

  /** As written, connect refusals reach the browser as Flask's 500 page without CORS headers,
      while the intended reply is the refusal's own status and message with them. */
  lemma ConnectRefusalAsWrittenFails(cfg: Config, httpMethod: string)
    requires httpMethod != "OPTIONS"
    ensures ConnectRouteAsWritten(None, cfg, httpMethod) == UncaughtError()
    ensures ConnectRoute(None, cfg, httpMethod).status == 401 && ConnectRoute(None, cfg, httpMethod).headers.Keys >= CorsHeaderNames
  {
  }

  /** As written, disconnecting a linked account unlinks it and then reports a server error. */
  lemma DisconnectAsWrittenFailsAfterUnlinking(docs: map<string, Doc>, userId: Json, cfg: Config, stamp: string, httpMethod: string)
    requires httpMethod != "OPTIONS"
    requires DocId(userId).Some? && IsLinked(docs, DocId(userId).value)
    ensures var (reply, after) := DisconnectRouteAsWritten(docs, Some(userId), cfg, false, stamp, httpMethod);
            reply == UncaughtError() && !IsLinked(after, DocId(userId).value) && after == Disconnect(docs, userId, false, stamp).1
  {
    var id := DocId(userId).value;
    assert ConnectedField in docs[id];
    DisconnectThenStatus(docs, userId, stamp);
  }

  // ---------------------------------------------------------------- the views as intended

  /** A JSON answer with its status, passed to `_add_cors_headers` as one response. */
  function Respond(r: Reply, cfg: Config, httpMethod: string): Reply {
    AddCorsHeaders(Response(r), cfg.allowedOrigins, httpMethod)
  }

  /** The connect view as intended: refusals carry their own status and the CORS headers; a
      caller who may connect is redirected to GitHub. */
  function ConnectRoute(caller: Option<Json>, cfg: Config, httpMethod: string): (r: Reply)
    requires httpMethod != "OPTIONS"
    ensures r.headers.Keys >= CorsHeaderNames
    ensures Connect(caller, cfg).ConnectRefused? ==>
              r.status == Connect(caller, cfg).status && r.payload == JsonBody(ErrorBody(Connect(caller, cfg).message))
    ensures Connect(caller, cfg).AuthorizeAt? ==> r.status == 302 && r.payload == Redirect(Connect(caller, cfg).url)
  {
    match Connect(caller, cfg)
    case ConnectRefused(status, message) => Respond(JsonReply(status, ErrorBody(message)), cfg, httpMethod)
    case AuthorizeAt(url) => Respond(RedirectReply(url), cfg, httpMethod)
  }

  /** Where the callback sends the browser: the settings page, with the error code or with
      `github_connected=true`. */
  function CallbackLocation(cfg: Config, result: CallbackResult): (l: string)
    ensures result.CallbackFailed? ==> l == ErrorLocation(cfg.frontendUrl, result.error)
    ensures result.CallbackLinked? ==> l == cfg.frontendUrl + "/auth/settings?github_connected=true"
  {
    match result
    case CallbackFailed(e) => ErrorLocation(cfg.frontendUrl, e)
    case CallbackLinked(_) => cfg.frontendUrl + "/auth/settings?github_connected=true"
  }

  /** The routes and the methods each accepts besides `OPTIONS`. */
  function RouteMethod(path: string): Option<string> {
    if path in {ConnectPath, CallbackPath, StatusPath} then Some("GET")
    else if path == DisconnectPath then Some("DELETE")
    else None
  }

  /** Whether `path` answers `httpMethod` besides `OPTIONS`: its own method, and `HEAD` wherever
      that is `GET`, since Werkzeug adds `HEAD` to every rule that lists `GET`. */
  predicate Accepts(path: string, httpMethod: string) {
    RouteMethod(path).Some? && (httpMethod == RouteMethod(path).value || (RouteMethod(path).value == "GET" && httpMethod == "HEAD"))
  }

  /** One request to the function, with the views as intended. Flask's own 404 and 405 answers get
      no CORS headers; every view's answer does. */
  method Handle(users: Collection, req: Request, path: string, cfg: Config, decode: string -> Option<Json>,
                post: map<string, string> -> HttpOutcome, getUser: string -> HttpOutcome,
                storeDown: bool, stamp: string) returns (reply: Reply)
    modifies users
    ensures RouteMethod(path).None? ==> reply == Reply(404, ErrorPage, map[]) && users.docs == old(users.docs)
    ensures RouteMethod(path).Some? && req.httpMethod != "OPTIONS" && !Accepts(path, req.httpMethod) ==>
              reply == Reply(405, ErrorPage, map[]) && users.docs == old(users.docs)
    ensures RouteMethod(path).Some? && (req.httpMethod == "OPTIONS" || Accepts(path, req.httpMethod)) ==>
              reply.headers.Keys >= CorsHeaderNames && reply.headers["Access-Control-Allow-Origin"] == cfg.allowedOrigins
    ensures RouteMethod(path).Some? && req.httpMethod == "OPTIONS" ==> reply.status == 204 && users.docs == old(users.docs)
    ensures path == ConnectPath && req.httpMethod in {"GET", "HEAD"} ==>
              reply == ConnectRoute(CallerId(req, decode, false), cfg, "GET") && users.docs == old(users.docs)
    ensures path == CallbackPath && req.httpMethod in {"GET", "HEAD"} ==>
              var (result, after) := CallbackOutcome(old(users.docs), req.args, cfg, Plaintext, post, getUser, storeDown, stamp);
              reply == Respond(RedirectReply(CallbackLocation(cfg, result)), cfg, "GET") && users.docs == after
    ensures path in {StatusPath, DisconnectPath} && Accepts(path, req.httpMethod) &&
            CallerId(req, decode, false).None? ==>
              reply == Respond(JsonReply(401, ErrorBody(AuthRequired)), cfg, req.httpMethod) && users.docs == old(users.docs)
    ensures path == StatusPath && req.httpMethod in {"GET", "HEAD"} && CallerId(req, decode, false).Some? ==>
              reply == Respond(Status(old(users.docs), CallerId(req, decode, false).value, storeDown), cfg, "GET") &&
              users.docs == old(users.docs)
    ensures path == DisconnectPath && req.httpMethod == "DELETE" && CallerId(req, decode, false).Some? ==>
              var (answer, after) := Disconnect(old(users.docs), CallerId(req, decode, false).value, storeDown, stamp);
              reply == Respond(answer, cfg, "DELETE") && users.docs == after
  {
    var accepted := RouteMethod(path);
    if accepted.None? {
      return Reply(404, ErrorPage, map[]);
    }
    if req.httpMethod == "OPTIONS" {
      return AddCorsHeaders(Pair(Empty, 204), cfg.allowedOrigins, "OPTIONS");
    }
    if !Accepts(path, req.httpMethod) {
      return Reply(405, ErrorPage, map[]);
    }
    if path == ConnectPath {
      reply := ConnectRoute(CallerId(req, decode, false), cfg, "GET");
    } else if path == CallbackPath {
      var result := Callback(users, req.args, cfg, Plaintext, post, getUser, storeDown, stamp);
      reply := Respond(RedirectReply(CallbackLocation(cfg, result)), cfg, "GET");
    } else {
      var caller := CallerId(req, decode, false);
      var answer: Reply;
      if caller.None? {
        answer := JsonReply(401, ErrorBody(AuthRequired));
      } else if path == StatusPath {
        answer := GetStatus(users, caller.value, storeDown);
      } else {
        answer := DisconnectAccount(users, caller.value, storeDown, stamp);
      }
      reply := Respond(answer, cfg, req.httpMethod);
    }
  }

  /** This function stores the access token GitHub returned exactly as it came. */
  lemma StoredTokenIsPlain(docs: map<string, Doc>, args: map<string, string>, cfg: Config,
                           post: map<string, string> -> HttpOutcome, getUser: string -> HttpOutcome,
                           storeDown: bool, stamp: string)
    requires CallbackOutcome(docs, args, cfg, Plaintext, post, getUser, storeDown, stamp).0.CallbackLinked?
    ensures var r := CallbackOutcome(docs, args, cfg, Plaintext, post, getUser, storeDown, stamp);
            var form := TokenForm(cfg.clientId.value, cfg.clientSecret.value, args["code"], cfg.gatewayBase.value);
            var token := PyGet(JsonOf(post(form)).value.fields, "access_token");
            !MergesInto(token) ==> TokenField in r.1[r.0.userId] && r.1[r.0.userId][TokenField] == token
  {
    LinkStoresToken(docs, args, cfg, Plaintext, post, getUser, storeDown, stamp);
  }
}
