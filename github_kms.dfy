/** The GitHub integration Cloud Function that stores the access token encrypted with KMS
    (functions/github-integration/main.py): its four routes, the self-closing success page its
    callback serves to the popup window, and how that page's message reaches the settings page's
    hook.

    `encrypt` stands for `_encrypt_data_kms` (configuration check, KMS call and base64 encoding
    together; `None` when any of them fails). */
module GitHubKms {
  import opened Wrappers
  import opened Json
  import opened PyHttp
  import opened DocumentStore
  import opened GitHubAccount
  import Text
  import GitHubLinking

  const ConnectPath := "/api/v1/github/connect"
  const StatusPath := "/api/v1/github/status"
  const DisconnectPath := "/api/v1/github/disconnect"

  /** The message the success page posts to the window that opened it. */
  const SuccessMessage := Obj(map["source" := Str("github-popup"), "status" := Str("success")])

  /** The origin the success page addresses its message to: `FRONTEND_URL` with leading and
      trailing slashes removed. */
  function TargetOrigin(frontendUrl: string): (o: string)
    ensures o == "" || (o[0] != '/' && o[|o| - 1] != '/')
    ensures frontendUrl != "" && frontendUrl[0] != '/' && frontendUrl[|frontendUrl| - 1] != '/' ==> o == frontendUrl
    ensures '/' !in frontendUrl ==> o == frontendUrl
  {
    Text.Strip(frontendUrl, '/')
  }

  /** The target origin is `FRONTEND_URL` less a run of slashes at each end, and nothing else. */
  lemma TargetOriginOnlyStripsSlashes(frontendUrl: string)
    ensures exists i :: Text.RunsAround(frontendUrl, '/', i, TargetOrigin(frontendUrl))
  {
    var i :| Text.RunsAround(frontendUrl, '/', i, Text.Strip(frontendUrl, '/'));
    assert Text.RunsAround(frontendUrl, '/', i, TargetOrigin(frontendUrl));
  }

  /** The connect route's reply: the error as JSON, or the authorization URL for the front end to
      open. */
  function ConnectReply(t: ConnectTarget): (r: Reply)
    ensures t.ConnectRefused? ==> r == JsonReply(t.status, ErrorBody(t.message))
    ensures t.AuthorizeAt? ==> r == JsonReply(200, Obj(map["redirectUrl" := Str(t.url)]))
  {
    match t
    case ConnectRefused(status, message) => JsonReply(status, ErrorBody(message))
    case AuthorizeAt(url) => JsonReply(200, Obj(map["redirectUrl" := Str(url)]))
  }

  /** The callback's reply: a redirect to the settings page with the error code, or the success
      page. */
  function CallbackReply(cfg: Config, result: CallbackResult): (r: Reply)
    ensures result.CallbackFailed? ==> r == RedirectReply(ErrorLocation(cfg.frontendUrl, result.error))
    ensures result.CallbackLinked? ==> r == Reply(200, PopupPage(SuccessMessage, TargetOrigin(cfg.frontendUrl)), map[])
  {
    match result
    case CallbackFailed(e) => RedirectReply(ErrorLocation(cfg.frontendUrl, e))
    case CallbackLinked(_) => Reply(200, PopupPage(SuccessMessage, TargetOrigin(cfg.frontendUrl)), map[])
  }

  /** The routes and the methods each accepts besides `OPTIONS`. */
  function RouteMethod(path: string): Option<string> {
    if path in {ConnectPath, CallbackPath, StatusPath} then Some("GET")
    else if path == DisconnectPath then Some("DELETE")
    else None
  }

  /** Whether `path` answers `httpMethod` besides `OPTIONS`: its own method, and `HEAD` wherever
      that is `GET`, since Werkzeug adds `HEAD` to every rule that lists `GET`. */
  predicate Accepts(path: string, httpMethod: string) {
    RouteMethod(path).Some? && (httpMethod == RouteMethod(path).value || (RouteMethod(path).value == "GET" && httpMethod == "HEAD"))
  }

  /** One request to the function. Flask answers unknown paths (404) and other methods (405);
      every reply, those included, gets the CORS headers from the `after_request` hook. */
  method Handle(users: Collection, req: Request, path: string, cfg: Config, decode: string -> Option<Json>,
                encrypt: string -> Option<string>, post: map<string, string> -> HttpOutcome,
                getUser: string -> HttpOutcome, storeDown: bool, stamp: string) returns (reply: Reply)
    modifies users
    ensures reply.headers.Keys >= CorsHeaderNames && reply.headers["Access-Control-Allow-Origin"] == cfg.allowedOrigins
    ensures RouteMethod(path).None? ==> reply.status == 404 && users.docs == old(users.docs)
    ensures RouteMethod(path).Some? && req.httpMethod != "OPTIONS" && !Accepts(path, req.httpMethod) ==>
              reply.status == 405 && users.docs == old(users.docs)
    ensures RouteMethod(path).Some? && req.httpMethod == "OPTIONS" ==>
              reply.status == 204 && reply.payload == Empty && users.docs == old(users.docs)
    ensures path == ConnectPath && req.httpMethod in {"GET", "HEAD"} ==>
              reply == WithCors(ConnectReply(Connect(CallerId(req, decode, true), cfg)), cfg.allowedOrigins, AllowedHeaders) &&
              users.docs == old(users.docs)
    ensures path == CallbackPath && req.httpMethod in {"GET", "HEAD"} ==>
              var (result, after) := CallbackOutcome(old(users.docs), req.args, cfg, Kms(encrypt), post, getUser, storeDown, stamp);
              reply == WithCors(CallbackReply(cfg, result), cfg.allowedOrigins, AllowedHeaders) && users.docs == after
    ensures path in {StatusPath, DisconnectPath} && Accepts(path, req.httpMethod) &&
            CallerId(req, decode, true).None? ==>
              reply == WithCors(JsonReply(401, ErrorBody(AuthRequired)), cfg.allowedOrigins, AllowedHeaders) &&
              users.docs == old(users.docs)
    ensures path == StatusPath && req.httpMethod in {"GET", "HEAD"} && CallerId(req, decode, true).Some? ==>
              reply == WithCors(Status(old(users.docs), CallerId(req, decode, true).value, storeDown), cfg.allowedOrigins, AllowedHeaders) &&
              users.docs == old(users.docs)
    ensures path == DisconnectPath && req.httpMethod == "DELETE" && CallerId(req, decode, true).Some? ==>
              var (answer, after) := Disconnect(old(users.docs), CallerId(req, decode, true).value, storeDown, stamp);
              reply == WithCors(answer, cfg.allowedOrigins, AllowedHeaders) && users.docs == after
  {
    var inner: Reply;
    var accepted := RouteMethod(path);
    if accepted.None? {
      inner := Reply(404, ErrorPage, map[]);
    } else if req.httpMethod == "OPTIONS" {
      inner := Reply(204, Empty, map[]);
    } else if !Accepts(path, req.httpMethod) {
      inner := Reply(405, ErrorPage, map[]);
    } else if path == ConnectPath {
      inner := ConnectReply(Connect(CallerId(req, decode, true), cfg));
    } else if path == CallbackPath {
      var result := Callback(users, req.args, cfg, Kms(encrypt), post, getUser, storeDown, stamp);
      inner := CallbackReply(cfg, result);
    } else {
      var caller := CallerId(req, decode, true);
      if caller.None? {
        inner := JsonReply(401, ErrorBody(AuthRequired));
      } else if path == StatusPath {
        inner := GetStatus(users, caller.value, storeDown);
      } else {
        inner := DisconnectAccount(users, caller.value, storeDown, stamp);
      }
    }
    reply := WithCors(inner, cfg.allowedOrigins, AllowedHeaders);
  }

  /** The token this function stores is never the access token itself: it is the ciphertext KMS
      returned for it. */
  lemma StoredTokenIsCiphertext(docs: map<string, Doc>, args: map<string, string>, cfg: Config,
                                encrypt: string -> Option<string>, post: map<string, string> -> HttpOutcome,
                                getUser: string -> HttpOutcome, storeDown: bool, stamp: string)
    requires CallbackOutcome(docs, args, cfg, Kms(encrypt), post, getUser, storeDown, stamp).0.CallbackLinked?
    ensures var r := CallbackOutcome(docs, args, cfg, Kms(encrypt), post, getUser, storeDown, stamp);
            var form := TokenForm(cfg.clientId.value, cfg.clientSecret.value, args["code"], cfg.gatewayBase.value);
            var token := PyGet(JsonOf(post(form)).value.fields, "access_token");
            token.Str? && encrypt(token.s).Some? &&
            TokenField in r.1[r.0.userId] && r.1[r.0.userId][TokenField] == Str(encrypt(token.s).value)
  {
    LinkStoresToken(docs, args, cfg, Kms(encrypt), post, getUser, storeDown, stamp);
    var form := TokenForm(cfg.clientId.value, cfg.clientSecret.value, args["code"], cfg.gatewayBase.value);
    var token := PyGet(JsonOf(post(form)).value.fields, "access_token");
    assert Seal(Kms(encrypt), token).Some?;
  }

  // ---------------------------------------------------------------- the popup page and the hook

  /** The signal the success page produces in the window that opened it: its script runs only with
      an opener, and the browser delivers the message only when the opener's origin is the target
      origin; the event carries the origin the page itself was served from. */
  function Delivered(page: Payload, openerOrigin: Option<string>, popupOrigin: string, popupClosed: bool)
    : (r: Option<GitHubLinking.Signal>)
    requires page.PopupPage?
    ensures r.Some? <==> openerOrigin == Some(page.targetOrigin)
    ensures r.Some? ==> r.value == GitHubLinking.MessageEvent(popupOrigin, Some(page.message), popupClosed)
  {
    if openerOrigin == Some(page.targetOrigin) then Some(GitHubLinking.MessageEvent(popupOrigin, Some(page.message), popupClosed))
    else None
  }

  /** The success page confirms the link to the settings page's hook exactly when the settings
      page is at `FRONTEND_URL` (less its slashes) and the callback was served from that same
      origin; otherwise the hook only learns of the link when its poll sees the popup closed. */
  lemma SuccessPageConfirms(cfg: Config, userId: string, pageOrigin: string, popupOrigin: string, popupClosed: bool)
    ensures var page := CallbackReply(cfg, CallbackLinked(userId)).payload;
            page.PopupPage? &&
            var effect := match Delivered(page, Some(pageOrigin), popupOrigin, popupClosed)
              case None => GitHubLinking.NoEffect
              case Some(s) => GitHubLinking.Deliver(GitHubLinking.Fresh(true), pageOrigin, s).1;
            (effect == GitHubLinking.Linked <==> pageOrigin == TargetOrigin(cfg.frontendUrl) && popupOrigin == pageOrigin)
  {
    var page := CallbackReply(cfg, CallbackLinked(userId)).payload;
    assert page.message == SuccessMessage;
    assert JsOptMember(Some(SuccessMessage), "source") == Some(Str("github-popup"));
    assert JsOptMember(Some(SuccessMessage), "status") == Some(Str("success"));
    assert GitHubLinking.IsSuccessMessage(Some(SuccessMessage));
  }

  /** Every error code the callback sends is turned by the settings page into a failure message;
      the two codes the page has no text for are shown with their underscores as spaces. */
  lemma ErrorCodesAreShown(e: CallbackError)
    ensures var shown := GitHubLinking.ReadUrlParams(None, Some(Code(e)));
            shown.LinkFailed? && GitHubLinking.FailurePrefix <= shown.message
    ensures e == EncryptionFailed ==>
              GitHubLinking.ReadUrlParams(None, Some(Code(e))).message == GitHubLinking.FailurePrefix + "encryption failed."
    ensures e == InternalError ==>
              GitHubLinking.ReadUrlParams(None, Some(Code(e))).message == GitHubLinking.FailurePrefix + "internal error."
  {
    if e == EncryptionFailed {
      assert Text.ReplaceChar("encryption_failed", '_', ' ') == "encryption failed";
    } else if e == InternalError {
      assert Text.ReplaceChar("internal_error", '_', ' ') == "internal error";
    }
  }
}
