/** What the two GitHub integration Cloud Functions (functions/github-integration/main.py, which
    stores the access token encrypted with KMS, and functions/github_integration/main.py, which
    stores it as is) have in common: the OAuth authorization URL, the exchange of the callback's
    code for a token and a GitHub identity, and the status and disconnect logic over the user's
    document.

    `post` stands for the `requests.post` to GitHub's token endpoint (given the form it sends) and
    `getUser` for the `requests.get` of GitHub's user API (given the `Authorization` header it
    sends); `storeDown` says that the store raises on the request's first access, and `stamp` is
    the commit time the store gives `SERVER_TIMESTAMP`. */
module GitHubAccount {
  import opened Wrappers
  import opened Json
  import opened PyHttp
  import opened DocumentStore
  import Text

  const AuthorizeEndpoint := "https://github.com/login/oauth/authorize"
  const CallbackPath := "/api/v1/github/callback"
  const Scope := "read:user user:email"
  const AllowedHeaders := "Content-Type, Authorization, X-Apigateway-Api-Userinfo"
  const AuthRequired := "Authentication required."
  const NoClientId := "Server configuration error."
  const NoGatewayBase := "Server configuration error for callback."
  const StatusFailed := "Failed to retrieve status."
  const DisconnectFailed := "Failed to disconnect GitHub."
  const Disconnected := "GitHub disconnected successfully."
  const NothingToDisconnect := "No active GitHub connection to disconnect."
  const ConnectedField := "github_connected"
  const LoginField := "github_login"
  const IdField := "github_id"
  const TokenField := "github_access_token"
  const UpdatedField := "github_last_updated"

  /** The functions' environment: `CORS_ALLOWED_ORIGINS`, `GITHUB_CLIENT_ID`,
      `GITHUB_CLIENT_SECRET`, `FRONTEND_URL` (`"/"` when unset) and `API_GATEWAY_BASE_URL`. */
  datatype Config = Config(allowedOrigins: string, clientId: Option<string>, clientSecret: Option<string>,
                           frontendUrl: string, gatewayBase: Option<string>)

  // ---------------------------------------------------------------- authentication

  /** `_get_auth_user_info` reduced to what the routes use: the truthy `sub` claim, or `None`
      (every failure answers 401). The KMS function pads the header before decoding, the plain one
      does not. */
  function CallerId(req: Request, decode: string -> Option<Json>, pad: bool): (r: Option<Json>)
    ensures r.Some? <==> DecodeUserInfo(Lookup(req.headers, UserInfoHeader), decode, pad).Claims?
    ensures r.Some? ==>
              PyTruthy(r.value) && r.value == DecodeUserInfo(Lookup(req.headers, UserInfoHeader), decode, pad).claims[SubjectClaim]
  {
    match DecodeUserInfo(Lookup(req.headers, UserInfoHeader), decode, pad)
    case Claims(claims) => Some(claims[SubjectClaim])
    case _ => None
  }

  // ---------------------------------------------------------------- connect

  /** The redirect URI registered for the OAuth app, under the API gateway. */
  function CallbackUrl(base: string): string {
    base + CallbackPath
  }

  /** The authorization request's parameters, as `key=value` pieces in the order they are sent
      (section 4.1.1 of RFC 6749). Values are not percent-encoded. */
  function AuthorizeParams(clientId: string, base: string, state: string): seq<string> {
    ["client_id=" + clientId, "redirect_uri=" + CallbackUrl(base), "scope=" + Scope, "state=" + state]
  }

  /** GitHub's authorization URL with the parameters joined by '&'. */
  function AuthorizeUrl(clientId: string, base: string, state: string): string {
    AuthorizeEndpoint + "?" + Text.Join("&", AuthorizeParams(clientId, base, state))
  }

  /** The query of the authorization URL splits back into exactly the four parameters, provided no
      value holds a '&' (the values are not encoded, so one that does would be cut in two). */
  lemma AuthorizeQueryRoundTrip(clientId: string, base: string, state: string)
    requires '&' !in clientId && '&' !in base && '&' !in state
    ensures var u := AuthorizeUrl(clientId, base, state);
            |AuthorizeEndpoint| + 1 <= |u| &&
            Text.Split(u[|AuthorizeEndpoint| + 1..], '&') == AuthorizeParams(clientId, base, state)
  {
    var params := AuthorizeParams(clientId, base, state);
    assert '&' !in Scope;
    assert '&' !in CallbackPath;
    forall k | 0 <= k < |params|
      ensures '&' !in params[k]
    {
    }
    Text.SplitJoin(params, '&');
    var u := AuthorizeUrl(clientId, base, state);
    assert u[|AuthorizeEndpoint| + 1..] == Text.Join(['&'], params);
  }

  /** Where a connect request leads: a refusal (status and message) or GitHub's authorization URL. */
  datatype ConnectTarget = ConnectRefused(status: int, message: string) | AuthorizeAt(url: string)

  /** The connect route's decision: the caller is checked first, then the client ID, then the
      gateway base URL; the user's ID travels as the OAuth `state`. */
  function Connect(caller: Option<Json>, cfg: Config): (r: ConnectTarget)
    ensures caller.None? ==> r == ConnectRefused(401, AuthRequired)
    ensures caller.Some? && !Given(cfg.clientId) ==> r == ConnectRefused(500, NoClientId)
    ensures caller.Some? && Given(cfg.clientId) && !Given(cfg.gatewayBase) ==> r == ConnectRefused(500, NoGatewayBase)
    ensures r.AuthorizeAt? <==> caller.Some? && Given(cfg.clientId) && Given(cfg.gatewayBase)
    ensures r.AuthorizeAt? ==> r.url == AuthorizeUrl(cfg.clientId.value, cfg.gatewayBase.value, PyStr(caller.value))
  {
    if caller.None? then ConnectRefused(401, AuthRequired)
    else if !Given(cfg.clientId) then ConnectRefused(500, NoClientId)
    else if !Given(cfg.gatewayBase) then ConnectRefused(500, NoGatewayBase)
    else AuthorizeAt(AuthorizeUrl(cfg.clientId.value, cfg.gatewayBase.value, PyStr(caller.value)))
  }

  // ---------------------------------------------------------------- callback

  /** The error codes the callback sends back to the front end in `github_error`. */
  datatype CallbackError =
    | MissingParams | ConfigError | TokenExchangeFailed | EncryptionFailed | UserFetchFailed | ApiError | InternalError

  function Code(e: CallbackError): (c: string)
    ensures c != "" && ' ' !in c
  {
    match e
    case MissingParams => "missing_params"
    case ConfigError => "config_error"
    case TokenExchangeFailed => "token_exchange_failed"
    case EncryptionFailed => "encryption_failed"
    case UserFetchFailed => "user_fetch_failed"
    case ApiError => "api_error"
    case InternalError => "internal_error"
  }

  /** The front end's settings page with the error code. */
  function ErrorLocation(frontendUrl: string, e: CallbackError): string {
    frontendUrl + "/auth/settings?github_error=" + Code(e)
  }

  /** The form posted to GitHub's token endpoint (section 4.1.3 of RFC 6749). */
  function TokenForm(clientId: string, clientSecret: string, code: string, base: string): (f: map<string, string>)
    ensures f.Keys == {"client_id", "client_secret", "code", "redirect_uri"}
    ensures f["code"] == code && f["client_id"] == clientId
  {
    map["client_id" := clientId, "client_secret" := clientSecret, "code" := code, "redirect_uri" := CallbackUrl(base)]
  }

  /** The token request names the same redirect URI the authorization request sent, as section
      4.1.3 of RFC 6749 requires. */
  lemma RedirectUriAgrees(clientId: string, clientSecret: string, code: string, base: string, state: string)
    requires '&' !in clientId && '&' !in base && '&' !in state
    ensures var u := AuthorizeUrl(clientId, base, state);
            |AuthorizeEndpoint| + 1 <= |u| &&
            "redirect_uri=" + TokenForm(clientId, clientSecret, code, base)["redirect_uri"] in
              Text.Split(u[|AuthorizeEndpoint| + 1..], '&')
  {
    AuthorizeQueryRoundTrip(clientId, base, state);
    assert AuthorizeParams(clientId, base, state)[1] == "redirect_uri=" + CallbackUrl(base);
  }

  /** How the access token is stored: as is, or encrypted by `_encrypt_data_kms` (`encrypt` is
      `None` when the KMS variables are not all set or KMS raises). */
  datatype Sealing = Plaintext | Kms(encrypt: string -> Option<string>)

  /** The value stored for the token, or `None` when encryption fails (`.encode` on a token that is
      not a string raises inside `_encrypt_data_kms`, and an empty ciphertext is refused). */
  function Seal(sealing: Sealing, token: Json): (r: Option<Json>)
    ensures sealing.Plaintext? ==> r == Some(token)
    ensures sealing.Kms? ==>
              (r.Some? <==> token.Str? && sealing.encrypt(token.s).Some? && sealing.encrypt(token.s).value != "")
    ensures sealing.Kms? && r.Some? ==> r.value == Str(sealing.encrypt(token.s).value)
  {
    match sealing
    case Plaintext => Some(token)
    case Kms(encrypt) =>
      if token.Str? && encrypt(token.s).Some? && encrypt(token.s).value != "" then Some(Str(encrypt(token.s).value))
      else None
  }

  /** What the exchange with GitHub gives: an error, or the stored token and the GitHub identity. */
  datatype Grant = Refused(error: CallbackError) | Granted(token: Json, login: Json, id: Json)

  /** The part of the callback inside its `try`, up to the store write: the code exchanged for a
      token, the token sealed, the user fetched. A failed call, an error status or a body that is
      not JSON is an `api_error`; a body that is JSON but not an object has no `.get`, an
      `internal_error`. */
  function ExchangeCode(form: map<string, string>, sealing: Sealing, post: map<string, string> -> HttpOutcome,
                        getUser: string -> HttpOutcome): (r: Grant)
    ensures JsonOf(post(form)).None? ==> r == Refused(ApiError)
    ensures JsonOf(post(form)).Some? && !JsonOf(post(form)).value.Obj? ==> r == Refused(InternalError)
    ensures r.Granted? ==>
              var tokenData := JsonOf(post(form)).value;
              tokenData.Obj? && PyTruthy(PyGet(tokenData.fields, "access_token")) &&
              Seal(sealing, PyGet(tokenData.fields, "access_token")) == Some(r.token) &&
              var user := JsonOf(getUser("token " + PyStr(PyGet(tokenData.fields, "access_token"))));
              user.Some? && user.value.Obj? &&
              r.login == PyGet(user.value.fields, "login") && r.id == PyGet(user.value.fields, "id") &&
              PyTruthy(r.login) && PyTruthy(r.id)
    // The token is sealed before GitHub is asked who the user is.
    ensures r == Refused(EncryptionFailed) ==>
              var tokenData := JsonOf(post(form)).value;
              Seal(sealing, PyGet(tokenData.fields, "access_token")).None?
    ensures sealing.Plaintext? ==> r != Refused(EncryptionFailed)
    // Each step past the token call, in order: the token, its sealing, the user call, the user's
    // login and ID. The first that fails decides the error; when none fails the link is granted.
    ensures JsonOf(post(form)).Some? && JsonOf(post(form)).value.Obj? ==>
              var token := PyGet(JsonOf(post(form)).value.fields, "access_token");
              (!PyTruthy(token) ==> r == Refused(TokenExchangeFailed)) &&
              (PyTruthy(token) && Seal(sealing, token).None? ==> r == Refused(EncryptionFailed)) &&
              (PyTruthy(token) && Seal(sealing, token).Some? ==>
                 var user := JsonOf(getUser("token " + PyStr(token)));
                 (user.None? ==> r == Refused(ApiError)) &&
                 (user.Some? && !user.value.Obj? ==> r == Refused(InternalError)) &&
                 (user.Some? && user.value.Obj? ==>
                    var login := PyGet(user.value.fields, "login");
                    var id := PyGet(user.value.fields, "id");
                    (!(PyTruthy(login) && PyTruthy(id)) ==> r == Refused(UserFetchFailed)) &&
                    (PyTruthy(login) && PyTruthy(id) ==> r == Granted(Seal(sealing, token).value, login, id))))
  {
    match JsonOf(post(form))
    case None => Refused(ApiError)
    case Some(tokenData) =>
      if !tokenData.Obj? then Refused(InternalError)
      else
        var token := PyGet(tokenData.fields, "access_token");
        if !PyTruthy(token) then Refused(TokenExchangeFailed)
        else match Seal(sealing, token)
          case None => Refused(EncryptionFailed)
          case Some(sealed) =>
            match JsonOf(getUser("token " + PyStr(token)))
            case None => Refused(ApiError)
            case Some(user) =>
              if !user.Obj? then Refused(InternalError)
              else
                var login := PyGet(user.fields, "login");
                var id := PyGet(user.fields, "id");
                if !PyTruthy(login) || !PyTruthy(id) then Refused(UserFetchFailed)
                else Granted(sealed, login, id)
  }

  /** The fields the callback merges into the user's document. */
  function LinkWrites(g: Grant): (w: map<string, FieldWrite>)
    requires g.Granted?
    ensures w.Keys == {TokenField, LoginField, IdField, ConnectedField, UpdatedField}
  {
    map[TokenField := Put(g.token), LoginField := Put(g.login), IdField := Put(Str(PyStr(g.id))),
        ConnectedField := Put(Bool(true)), UpdatedField := ServerTimestamp]
  }

  /** How a callback ends: with an error code, or with the account linked to a user. */
  datatype CallbackResult = CallbackFailed(error: CallbackError) | CallbackLinked(userId: string)

  /** Whether the OAuth app is fully configured. */
  predicate Configured(cfg: Config) {
    Given(cfg.clientId) && Given(cfg.clientSecret) && Given(cfg.gatewayBase)
  }

  /** The callback: how it ends and the collection after it. The user is the one named by the
      `state` parameter; nothing is written unless the whole exchange succeeds. */
  function CallbackOutcome(docs: map<string, Doc>, args: map<string, string>, cfg: Config, sealing: Sealing,
                           post: map<string, string> -> HttpOutcome, getUser: string -> HttpOutcome,
                           storeDown: bool, stamp: string): (r: (CallbackResult, map<string, Doc>))
    ensures !Given(Lookup(args, "code")) || !Given(Lookup(args, "state")) ==> r == (CallbackFailed(MissingParams), docs)
    ensures Given(Lookup(args, "code")) && Given(Lookup(args, "state")) && !Configured(cfg) ==>
              r == (CallbackFailed(ConfigError), docs)
    ensures r.0.CallbackFailed? ==> r.1 == docs
    ensures r.0.CallbackLinked? ==>
              Configured(cfg) && Given(Lookup(args, "code")) && !storeDown && r.0.userId == args["state"] &&
              var g := ExchangeCode(TokenForm(cfg.clientId.value, cfg.clientSecret.value, args["code"], cfg.gatewayBase.value),
                                    sealing, post, getUser);
              g.Granted? &&
              r.1 == docs[r.0.userId := SetMerge(if r.0.userId in docs then Some(docs[r.0.userId]) else None, LinkWrites(g), stamp)]
    // Once the exchange succeeds, only a store failure stops the link.
    ensures Given(Lookup(args, "code")) && Given(Lookup(args, "state")) && Configured(cfg) &&
            ExchangeCode(TokenForm(cfg.clientId.value, cfg.clientSecret.value, args["code"], cfg.gatewayBase.value),
                         sealing, post, getUser).Granted? ==>
              (r.0.CallbackLinked? <==> !storeDown)
    // A refused exchange ends the callback with its own code; a store failure after a granted
    // one ends it with `internal_error`.
    ensures Given(Lookup(args, "code")) && Given(Lookup(args, "state")) && Configured(cfg) ==>
              var g := ExchangeCode(TokenForm(cfg.clientId.value, cfg.clientSecret.value, args["code"], cfg.gatewayBase.value),
                                    sealing, post, getUser);
              (g.Refused? ==> r == (CallbackFailed(g.error), docs)) &&
              (g.Granted? && storeDown ==> r == (CallbackFailed(InternalError), docs))
  {
    var code := Lookup(args, "code");
    var state := Lookup(args, "state");
    if !Given(code) || !Given(state) then (CallbackFailed(MissingParams), docs)
    else if !Configured(cfg) then (CallbackFailed(ConfigError), docs)
    else
      var form := TokenForm(cfg.clientId.value, cfg.clientSecret.value, code.value, cfg.gatewayBase.value);
      match ExchangeCode(form, sealing, post, getUser)
      case Refused(e) => (CallbackFailed(e), docs)
      case Granted(token, login, id) =>
        if storeDown then (CallbackFailed(InternalError), docs)
        else
          var prev := if state.value in docs then Some(docs[state.value]) else None;
          (CallbackLinked(state.value), docs[state.value := SetMerge(prev, LinkWrites(Granted(token, login, id)), stamp)])
  }

  /** The callback, step by step, over the `users` collection. */
  method Callback(users: Collection, args: map<string, string>, cfg: Config, sealing: Sealing,
                  post: map<string, string> -> HttpOutcome, getUser: string -> HttpOutcome,
                  storeDown: bool, stamp: string) returns (result: CallbackResult)
    modifies users
    ensures (result, users.docs) == CallbackOutcome(old(users.docs), args, cfg, sealing, post, getUser, storeDown, stamp)
  {
    var code := Lookup(args, "code");
    var state := Lookup(args, "state");
    if !Given(code) || !Given(state) {
      return CallbackFailed(MissingParams);
    }
    if !Configured(cfg) {
      return CallbackFailed(ConfigError);
    }
    var form := TokenForm(cfg.clientId.value, cfg.clientSecret.value, code.value, cfg.gatewayBase.value);
    var grant := ExchangeCode(form, sealing, post, getUser);
    if grant.Refused? {
      return CallbackFailed(grant.error);
    }
    if storeDown {
      return CallbackFailed(InternalError);
    }
    users.Set(state.value, LinkWrites(grant), stamp);
    result := CallbackLinked(state.value);
  }

  // ---------------------------------------------------------------- status and disconnect

  /** Whether a user's document records a live link: it exists and `github_connected` is truthy,
      a missing field counting as not connected. */
  predicate IsLinked(docs: map<string, Doc>, id: string) {
    id in docs && PyTruthy(PyGet(docs[id], ConnectedField))
  }

  /** The status route as written: it reads `github_connected` (and, when that is truthy, the
      login and ID) with `DocumentSnapshot.get`, so a document without those fields raises and the
      route answers 500. */
  function StatusAsWritten(docs: map<string, Doc>, userId: Json, storeDown: bool): (r: Reply)
    ensures DocId(userId).None? || storeDown ==> r == JsonReply(500, ErrorBody(StatusFailed))
    ensures (DocId(userId).Some? && !storeDown && DocId(userId).value in docs &&
             ConnectedField !in docs[DocId(userId).value]) ==> r == JsonReply(500, ErrorBody(StatusFailed))
  {
    var id := DocId(userId);
    if id.None? || storeDown || id.value !in docs then
      (if id.None? || storeDown then JsonReply(500, ErrorBody(StatusFailed)) else JsonReply(200, Obj(map["connected" := Bool(false)])))
    else
      var doc := docs[id.value];
      match Lookup(doc, ConnectedField)
      case None => JsonReply(500, ErrorBody(StatusFailed))
      case Some(connected) =>
        if !PyTruthy(connected) then JsonReply(200, Obj(map["connected" := Bool(false)]))
        else if LoginField !in doc || IdField !in doc then JsonReply(500, ErrorBody(StatusFailed))
        else JsonReply(200, Obj(map["connected" := Bool(true), "username" := doc[LoginField], IdField := doc[IdField]]))
  }

  /** The status route as intended: a missing field reads as `None`, so a user who never linked
      an account is reported as not connected. */
  function Status(docs: map<string, Doc>, userId: Json, storeDown: bool): (r: Reply)
    ensures DocId(userId).None? || storeDown ==> r == JsonReply(500, ErrorBody(StatusFailed))
    ensures DocId(userId).Some? && !storeDown ==>
              r.status == 200 && r.payload.JsonBody? && r.payload.value.Obj? &&
              "connected" in r.payload.value.fields &&
              r.payload.value.fields["connected"] == Bool(IsLinked(docs, DocId(userId).value))
    ensures DocId(userId).Some? && !storeDown && IsLinked(docs, DocId(userId).value) ==>
              var doc := docs[DocId(userId).value];
              r.payload.value.fields == map["connected" := Bool(true), "username" := PyGet(doc, LoginField), IdField := PyGet(doc, IdField)]
    ensures DocId(userId).Some? && !storeDown && !IsLinked(docs, DocId(userId).value) ==>
              r.payload.value.fields == map["connected" := Bool(false)]
  {
    var id := DocId(userId);
    if id.None? || storeDown then JsonReply(500, ErrorBody(StatusFailed))
    else if IsLinked(docs, id.value) then
      var doc := docs[id.value];
      JsonReply(200, Obj(map["connected" := Bool(true), "username" := PyGet(doc, LoginField), IdField := PyGet(doc, IdField)]))
    else JsonReply(200, Obj(map["connected" := Bool(false)]))
  }

  /** The two status routes agree on every document that has the fields they read. */
  lemma StatusAgreesWhenFieldsPresent(docs: map<string, Doc>, userId: Json, storeDown: bool)
    requires DocId(userId).Some? && DocId(userId).value in docs
    requires var doc := docs[DocId(userId).value];
             ConnectedField in doc && (PyTruthy(doc[ConnectedField]) ==> LoginField in doc && IdField in doc)
    ensures StatusAsWritten(docs, userId, storeDown) == Status(docs, userId, storeDown)
  {
  }

  /** A user whose document was created by the profile function alone (no GitHub fields): the
      status as written fails, the intended status says "not connected". */
  lemma StatusAsWrittenFailsForUnlinkedUser()
    ensures var docs := map["u1" := map["cookieConsent" := Bool(true)]];
            StatusAsWritten(docs, Str("u1"), false).status == 500 &&
            Status(docs, Str("u1"), false) == JsonReply(200, Obj(map["connected" := Bool(false)]))
  {
    var docs := map["u1" := map["cookieConsent" := Bool(true)]];
    assert Lookup(docs["u1"], ConnectedField).None?;
    assert !IsLinked(docs, "u1");
  }

  /** The fields the disconnect route updates. */
  function UnlinkWrites(): (w: map<string, FieldWrite>)
    ensures w.Keys == {TokenField, LoginField, IdField, ConnectedField, UpdatedField}
  {
    map[TokenField := DeleteField, LoginField := DeleteField, IdField := DeleteField,
        ConnectedField := Put(Bool(false)), UpdatedField := ServerTimestamp]
  }

  /** The disconnect route as written: like the status route, it raises on a document without
      `github_connected`. */
  function DisconnectAsWritten(docs: map<string, Doc>, userId: Json, storeDown: bool, stamp: string): (r: (Reply, map<string, Doc>))
    ensures r.1 != docs ==> DocId(userId).Some? && IsLinked(docs, DocId(userId).value)
    ensures (DocId(userId).Some? && !storeDown && DocId(userId).value in docs &&
             ConnectedField !in docs[DocId(userId).value]) ==> r == (JsonReply(500, ErrorBody(DisconnectFailed)), docs)
  {
    var id := DocId(userId);
    if id.None? || storeDown then (JsonReply(500, ErrorBody(DisconnectFailed)), docs)
    else if id.value in docs && Lookup(docs[id.value], ConnectedField).None? then
      (JsonReply(500, ErrorBody(DisconnectFailed)), docs)
    else Disconnect(docs, userId, storeDown, stamp)
  }

  /** The disconnect route as intended: a linked account loses its token, login and ID and is
      marked disconnected; anything else is left alone and told there was nothing to do. */
  function Disconnect(docs: map<string, Doc>, userId: Json, storeDown: bool, stamp: string): (r: (Reply, map<string, Doc>))
    ensures DocId(userId).None? || storeDown ==> r == (JsonReply(500, ErrorBody(DisconnectFailed)), docs)
    ensures DocId(userId).Some? && !storeDown && IsLinked(docs, DocId(userId).value) ==>
              var id := DocId(userId).value;
              r == (JsonReply(200, Obj(map["message" := Str(Disconnected)])), docs[id := Updated(docs[id], UnlinkWrites(), stamp)])
    ensures DocId(userId).Some? && !storeDown && !IsLinked(docs, DocId(userId).value) ==>
              r == (JsonReply(200, Obj(map["message" := Str(NothingToDisconnect)])), docs)
  {
    var id := DocId(userId);
    if id.None? || storeDown then (JsonReply(500, ErrorBody(DisconnectFailed)), docs)
    else if IsLinked(docs, id.value) then
      (JsonReply(200, Obj(map["message" := Str(Disconnected)])), docs[id.value := Updated(docs[id.value], UnlinkWrites(), stamp)])
    else (JsonReply(200, Obj(map["message" := Str(NothingToDisconnect)])), docs)
  }

  /** The status route, over the collection. */
  method GetStatus(users: Collection, userId: Json, storeDown: bool) returns (reply: Reply)
    ensures reply == Status(users.docs, userId, storeDown)
  {
    var id := DocId(userId);
    if id.None? || storeDown {
      return JsonReply(500, ErrorBody(StatusFailed));
    }
    var doc := users.Get(id.value);
    if doc.Some? && PyTruthy(PyGet(doc.value, ConnectedField)) {
      reply := JsonReply(200, Obj(map["connected" := Bool(true), "username" := PyGet(doc.value, LoginField),
                                      IdField := PyGet(doc.value, IdField)]));
    } else {
      reply := JsonReply(200, Obj(map["connected" := Bool(false)]));
    }
  }

  /** The disconnect route, over the collection. */
  method DisconnectAccount(users: Collection, userId: Json, storeDown: bool, stamp: string) returns (reply: Reply)
    modifies users
    ensures (reply, users.docs) == Disconnect(old(users.docs), userId, storeDown, stamp)
  {
    var id := DocId(userId);
    if id.None? || storeDown {
      return JsonReply(500, ErrorBody(DisconnectFailed));
    }
    var doc := users.Get(id.value);
    if doc.Some? && PyTruthy(PyGet(doc.value, ConnectedField)) {
      var found := users.Update(id.value, UnlinkWrites(), stamp);
      reply := JsonReply(200, Obj(map["message" := Str(Disconnected)]));
    } else {
      reply := JsonReply(200, Obj(map["message" := Str(NothingToDisconnect)]));
    }
  }

  // ---------------------------------------------------------------- across routes

  /** After a successful callback, the status route reports the account as connected, with the
      login GitHub gave and its ID as text. */
  lemma LinkThenStatus(docs: map<string, Doc>, args: map<string, string>, cfg: Config, sealing: Sealing,
                       post: map<string, string> -> HttpOutcome, getUser: string -> HttpOutcome,
                       storeDown: bool, stamp: string)
    requires CallbackOutcome(docs, args, cfg, sealing, post, getUser, storeDown, stamp).0.CallbackLinked?
    ensures var (result, after) := CallbackOutcome(docs, args, cfg, sealing, post, getUser, storeDown, stamp);
            var g := ExchangeCode(TokenForm(cfg.clientId.value, cfg.clientSecret.value, args["code"], cfg.gatewayBase.value),
                                  sealing, post, getUser);
            g.Granted? && IsLinked(after, result.userId) &&
            (!MergesInto(g.login) ==>
               Status(after, Str(result.userId), false) ==
                 JsonReply(200, Obj(map["connected" := Bool(true), "username" := g.login, IdField := Str(PyStr(g.id))])))
  {
    var (result, after) := CallbackOutcome(docs, args, cfg, sealing, post, getUser, storeDown, stamp);
    var g := ExchangeCode(TokenForm(cfg.clientId.value, cfg.clientSecret.value, args["code"], cfg.gatewayBase.value),
                          sealing, post, getUser);
    var u := result.userId;
    var writes := LinkWrites(g);
    var doc := after[u];
    assert doc == SetMerge(if u in docs then Some(docs[u]) else None, writes, stamp);
    assert writes[ConnectedField] == Put(Bool(true)) && !MergesInto(Bool(true));
    assert doc[ConnectedField] == Bool(true);
    assert writes[IdField] == Put(Str(PyStr(g.id))) && !MergesInto(Str(PyStr(g.id)));
    assert doc[IdField] == Str(PyStr(g.id));
    if !MergesInto(g.login) {
      assert writes[LoginField] == Put(g.login);
      assert doc[LoginField] == g.login;
    }
  }

  /** A granted exchange carries the access token of the token call, sealed. */
  lemma GrantSealsToken(form: map<string, string>, sealing: Sealing, post: map<string, string> -> HttpOutcome,
                        getUser: string -> HttpOutcome)
    requires ExchangeCode(form, sealing, post, getUser).Granted?
    ensures JsonOf(post(form)).Some? && JsonOf(post(form)).value.Obj? &&
            Seal(sealing, PyGet(JsonOf(post(form)).value.fields, "access_token")) == Some(ExchangeCode(form, sealing, post, getUser).token)
  {
  }

  /** A successful callback stores, under the token field of the `state` user, the access token
      GitHub returned, sealed. */
  lemma LinkStoresToken(docs: map<string, Doc>, args: map<string, string>, cfg: Config, sealing: Sealing,
                        post: map<string, string> -> HttpOutcome, getUser: string -> HttpOutcome,
                        storeDown: bool, stamp: string)
    requires CallbackOutcome(docs, args, cfg, sealing, post, getUser, storeDown, stamp).0.CallbackLinked?
    ensures var r := CallbackOutcome(docs, args, cfg, sealing, post, getUser, storeDown, stamp);
            var form := TokenForm(cfg.clientId.value, cfg.clientSecret.value, args["code"], cfg.gatewayBase.value);
            JsonOf(post(form)).Some? && JsonOf(post(form)).value.Obj? &&
            var sealed := Seal(sealing, PyGet(JsonOf(post(form)).value.fields, "access_token"));
            sealed.Some? &&
            (!MergesInto(sealed.value) ==> TokenField in r.1[r.0.userId] && r.1[r.0.userId][TokenField] == sealed.value)
  {
    var r := CallbackOutcome(docs, args, cfg, sealing, post, getUser, storeDown, stamp);
    var form := TokenForm(cfg.clientId.value, cfg.clientSecret.value, args["code"], cfg.gatewayBase.value);
    var g := ExchangeCode(form, sealing, post, getUser);
    GrantSealsToken(form, sealing, post, getUser);
    var u := r.0.userId;
    var prev := if u in docs then Some(docs[u]) else None;
    var writes := LinkWrites(g);
    assert r.1 == docs[u := SetMerge(prev, writes, stamp)];
    if !MergesInto(g.token) {
      LinkWritesToken(prev, g, stamp);
    }
  }

  /** The link writes the granted token as it is, unless it is a map that would merge. */
  lemma LinkWritesToken(prev: Option<Doc>, g: Grant, stamp: string)
    requires g.Granted? && !MergesInto(g.token)
    ensures TokenField in SetMerge(prev, LinkWrites(g), stamp) && SetMerge(prev, LinkWrites(g), stamp)[TokenField] == g.token
  {
    assert LinkWrites(g)[TokenField] == Put(g.token);
  }

  /** After a disconnect, the status route reports the account as not connected, and the token,
      login and ID are gone from the document. */
  lemma DisconnectThenStatus(docs: map<string, Doc>, userId: Json, stamp: string)
    requires DocId(userId).Some? && IsLinked(docs, DocId(userId).value)
    ensures var after := Disconnect(docs, userId, false, stamp).1;
            var id := DocId(userId).value;
            id in after && TokenField !in after[id] && LoginField !in after[id] && IdField !in after[id] &&
            Status(after, userId, false) == JsonReply(200, Obj(map["connected" := Bool(false)]))
  {
    var id := DocId(userId).value;
    var after := Disconnect(docs, userId, false, stamp).1;
    assert after[id] == Updated(docs[id], UnlinkWrites(), stamp);
    assert UnlinkWrites()[ConnectedField] == Put(Bool(false));
    assert after[id][ConnectedField] == Bool(false);
    assert !IsLinked(after, id);
  }

  /** Disconnecting twice: the second request finds nothing to do and changes nothing. */
  lemma DisconnectTwice(docs: map<string, Doc>, userId: Json, stamp1: string, stamp2: string)
    requires DocId(userId).Some?
    ensures var after := Disconnect(docs, userId, false, stamp1).1;
            Disconnect(after, userId, false, stamp2) == (JsonReply(200, Obj(map["message" := Str(NothingToDisconnect)])), after)
  {
    var id := DocId(userId).value;
    var after := Disconnect(docs, userId, false, stamp1).1;
    if IsLinked(docs, id) {
      assert after[id] == Updated(docs[id], UnlinkWrites(), stamp1);
      assert UnlinkWrites()[ConnectedField] == Put(Bool(false));
      assert after[id][ConnectedField] == Bool(false);
    }
    assert !IsLinked(after, id);
  }
}
