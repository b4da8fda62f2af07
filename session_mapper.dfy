/** The session-mapper Cloud Function (functions/session-mapper/main.py): it creates an agent
    session for the signed-in user by forwarding the request to the agent service under the user's
    ID, authenticated with an ID token minted for that URL.

    `fetchToken` stands for `google.oauth2.id_token.fetch_id_token` with the audience it is given,
    and `post` for the `requests.post` call to the agent. */
module SessionMapper {
  import opened Wrappers
  import opened Json
  import opened PyHttp

  /** `CORS_ALLOWED_ORIGINS` and `CLOUDRUN_AGENT_URL` (`None` when unset). */
  datatype Config = Config(allowedOrigins: string, agentUrl: Option<string>)

  /** What `fetch_id_token` gives: a token, a missing-credentials error, or any other error. */
  datatype TokenOutcome = IdToken(token: string) | NoCredentials | TokenFailed(detail: string)

  /** The call made to the agent. */
  datatype AgentCall = AgentCall(url: string, headers: map<string, string>, body: string, timeout: int)

  /** What the agent call gives: a response (status, body, and its Content-Type if any), or no
      response at all. */
  datatype AgentOutcome = AgentReplied(status: int, content: string, contentType: Option<string>) | AgentUnreachable

  /** A request's reply, and the agent call it made if any. */
  datatype Exchange = Exchange(reply: Reply, call: Option<AgentCall>)

  const AllowedHeaders := "Content-Type, Authorization, X-App, X-End-User-ID, X-Apigateway-Api-Userinfo"
  const AppHeader := "X-App"
  const FlaskDefaultType := "text/html; charset=utf-8"
  const NoAuthInfo := "Authentication information not found (X-Apigateway-Api-Userinfo missing)."
  const BadAuthInfo := "Invalid authentication information format."
  const NoSubjectClaim := "User ID claim ('sub') not found in authentication information."

  /** The auth error as `make_response(json.dumps(error), status)` sends it: JSON text served as
      HTML. */
  function AuthError(info: UserInfo): (r: Reply)
    requires !info.Claims?
    ensures r.status == (if info.NoHeader? then 401 else 400)
    ensures r.payload.Text? && r.payload.mimeType == FlaskDefaultType
  {
    var message := match info
      case NoHeader => NoAuthInfo
      case Undecodable => BadAuthInfo
      case NoSubject => NoSubjectClaim;
    Reply(if info.NoHeader? then 401 else 400, Text("{\"error\": \"" + message + "\"}", FlaskDefaultType), map[])
  }

  /** The agent's sessions URL for an application and a user. */
  function TargetUrl(agentUrl: string, app: string, sub: Json): (u: string)
    // The agent's base URL, then the application's path, then the caller's sessions.
    ensures agentUrl + "/apps/" + app + "/users/" <= u
    ensures |u| >= 9 && u[|u| - 9..] == "/sessions"
  {
    agentUrl + "/apps/" + app + "/users/" + PyStr(sub) + "/sessions"
  }

  /** The reply for the agent's answer. */
  function AgentReply(outcome: AgentOutcome): (r: Reply)
    // A response that passes `raise_for_status()` is passed through, with its Content-Type if any.
    ensures outcome.AgentReplied? && !RaisesForStatus(outcome.status) ==>
              r == Reply(outcome.status, Text(outcome.content, outcome.contentType.GetOr(FlaskDefaultType)), map[])
    // An error status is passed on, with the agent's status and body in the JSON.
    ensures outcome.AgentReplied? && RaisesForStatus(outcome.status) ==>
              r == JsonReply(outcome.status, CommunicationError(outcome.status, outcome.content))
    // Without a response the reply is a 502 that says so.
    ensures outcome.AgentUnreachable? ==> r == JsonReply(502, CommunicationError(502, "No response text"))
  {
    match outcome
    case AgentReplied(status, content, contentType) =>
      if !RaisesForStatus(status) then Reply(status, Text(content, contentType.GetOr(FlaskDefaultType)), map[])
      else JsonReply(status, CommunicationError(status, content))
    case AgentUnreachable => JsonReply(502, CommunicationError(502, "No response text"))
  }

  /** The error body for a failed agent call: the message, the agent's status and its body. */
  function CommunicationError(status: int, text: string): (j: Json)
    ensures j.Obj? && j.fields.Keys == {"error", "agent_status", "agent_response"}
    ensures j.fields["agent_status"] == Num(status) && j.fields["agent_response"] == Str(text)
  {
    Obj(map["error" := Str("Failed to communicate with agent service."), "agent_status" := Num(status), "agent_response" := Str(text)])
  }

  /** `map_session` with the CORS headers `add_cors_headers` sets on every reply. */
  function MapSession(req: Request, cfg: Config, decode: string -> Option<Json>,
                      fetchToken: string -> TokenOutcome, post: AgentCall -> AgentOutcome): (r: Exchange)
    ensures r.reply.headers.Keys >= CorsHeaderNames && r.reply.headers["Access-Control-Allow-Origin"] == cfg.allowedOrigins
    ensures req.httpMethod == "OPTIONS" ==> r.reply.status == 204 && r.reply.payload == Empty && r.call.None?
    ensures req.httpMethod !in {"OPTIONS", "GET", "HEAD", "POST"} ==> r.reply.status == 405 && r.call.None?
    // The configuration is checked first, then the caller, then the application header.
    ensures req.httpMethod in {"GET", "HEAD", "POST"} && !Given(cfg.agentUrl) ==>
              r.reply.status == 500 && r.reply.payload == JsonBody(ErrorBody("Agent URL configuration error.")) && r.call.None?
    ensures req.httpMethod in {"GET", "HEAD", "POST"} && Given(cfg.agentUrl) &&
            !DecodeUserInfo(Lookup(req.headers, UserInfoHeader), decode, true).Claims? ==>
              r.reply == WithCors(AuthError(DecodeUserInfo(Lookup(req.headers, UserInfoHeader), decode, true)), cfg.allowedOrigins, AllowedHeaders) &&
              r.call.None?
    ensures req.httpMethod in {"GET", "HEAD", "POST"} && Given(cfg.agentUrl) &&
            DecodeUserInfo(Lookup(req.headers, UserInfoHeader), decode, true).Claims? && !Given(Lookup(req.headers, AppHeader)) ==>
              r.reply.status == 400 && r.reply.payload == JsonBody(ErrorBody("'X-App' header not found.")) && r.call.None?
    // The agent is called only for a configured, authenticated request naming its application,
    // at the user's sessions URL, with a token minted for that same URL.
    ensures r.call.Some? ==>
              req.httpMethod in {"GET", "HEAD", "POST"} && Given(cfg.agentUrl) &&
              var info := DecodeUserInfo(Lookup(req.headers, UserInfoHeader), decode, true);
              info.Claims? && Given(Lookup(req.headers, AppHeader)) &&
              var target := TargetUrl(cfg.agentUrl.value, req.headers[AppHeader], info.claims[SubjectClaim]);
              fetchToken(target).IdToken? &&
              r.call.value == AgentCall(target, map["Authorization" := "Bearer " + fetchToken(target).token, AppHeader := req.headers[AppHeader]],
                                        req.rawBody, 10) &&
              r.reply == WithCors(AgentReply(post(r.call.value)), cfg.allowedOrigins, AllowedHeaders)
    // Conversely, such a request whose token is minted does reach the agent.
    ensures req.httpMethod in {"GET", "HEAD", "POST"} && Given(cfg.agentUrl) ==>
              var info := DecodeUserInfo(Lookup(req.headers, UserInfoHeader), decode, true);
              (info.Claims? && Given(Lookup(req.headers, AppHeader)) &&
               fetchToken(TargetUrl(cfg.agentUrl.value, req.headers[AppHeader], info.claims[SubjectClaim])).IdToken?) ==>
                r.call.Some?
  {
    var inner :=
      if req.httpMethod == "OPTIONS" then Exchange(Reply(204, Empty, map[]), None)
      else if req.httpMethod !in {"GET", "HEAD", "POST"} then Exchange(Reply(405, ErrorPage, map[]), None)
      else if !Given(cfg.agentUrl) then Exchange(JsonReply(500, ErrorBody("Agent URL configuration error.")), None)
      else Forward(req, cfg.agentUrl.value, decode, fetchToken, post);
    Exchange(WithCors(inner.reply, cfg.allowedOrigins, AllowedHeaders), inner.call)
  }

  /** The part of `map_session` after the configuration check. */
  function Forward(req: Request, agentUrl: string, decode: string -> Option<Json>,
                   fetchToken: string -> TokenOutcome, post: AgentCall -> AgentOutcome): (r: Exchange)
    ensures !DecodeUserInfo(Lookup(req.headers, UserInfoHeader), decode, true).Claims? ==>
              r == Exchange(AuthError(DecodeUserInfo(Lookup(req.headers, UserInfoHeader), decode, true)), None)
    ensures DecodeUserInfo(Lookup(req.headers, UserInfoHeader), decode, true).Claims? && !Given(Lookup(req.headers, AppHeader)) ==>
              r == Exchange(JsonReply(400, ErrorBody("'X-App' header not found.")), None)
    ensures r.call.Some? ==>
              var info := DecodeUserInfo(Lookup(req.headers, UserInfoHeader), decode, true);
              info.Claims? && Given(Lookup(req.headers, AppHeader)) &&
              var target := TargetUrl(agentUrl, req.headers[AppHeader], info.claims[SubjectClaim]);
              fetchToken(target).IdToken? &&
              r.call.value == AgentCall(target, map["Authorization" := "Bearer " + fetchToken(target).token, AppHeader := req.headers[AppHeader]],
                                        req.rawBody, 10) &&
              r.reply == AgentReply(post(r.call.value))
    // A token failure answers 500 without calling the agent.
    ensures r.call.None? && DecodeUserInfo(Lookup(req.headers, UserInfoHeader), decode, true).Claims? && Given(Lookup(req.headers, AppHeader)) ==>
              r.reply.status == 500
    // Missing credentials and any other token error each have their own body.
    ensures DecodeUserInfo(Lookup(req.headers, UserInfoHeader), decode, true).Claims? && Given(Lookup(req.headers, AppHeader)) ==>
              var target := TargetUrl(agentUrl, req.headers[AppHeader],
                                      DecodeUserInfo(Lookup(req.headers, UserInfoHeader), decode, true).claims[SubjectClaim]);
              (fetchToken(target).NoCredentials? ==>
                 r == Exchange(JsonReply(500, ErrorBody("Service account configuration issue for the function.")), None)) &&
              (fetchToken(target).TokenFailed? ==>
                 r == Exchange(JsonReply(500, Obj(map["error" := Str("An unexpected internal error occurred."),
                                                      "details" := Str(fetchToken(target).detail)])), None))
  {
    var info := DecodeUserInfo(Lookup(req.headers, UserInfoHeader), decode, true);
    if !info.Claims? then Exchange(AuthError(info), None)
    else
      var app := Lookup(req.headers, AppHeader);
      if !Given(app) then Exchange(JsonReply(400, ErrorBody("'X-App' header not found.")), None)
      else
        var target := TargetUrl(agentUrl, app.value, info.claims[SubjectClaim]);
        match fetchToken(target)
        case NoCredentials =>
          Exchange(JsonReply(500, ErrorBody("Service account configuration issue for the function.")), None)
        case TokenFailed(detail) =>
          Exchange(JsonReply(500, Obj(map["error" := Str("An unexpected internal error occurred."), "details" := Str(detail)])), None)
        case IdToken(token) =>
          var call := AgentCall(target, map["Authorization" := "Bearer " + token, AppHeader := app.value], req.rawBody, 10);
          Exchange(AgentReply(post(call)), Some(call))
  }
}
