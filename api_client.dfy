/** `callAuthenticatedApi` (front/lib/apiClient.js): every call from the browser to the API
    gateway goes through it. It reads the current session, sends the ID token as a bearer token
    (section 2.1 of RFC 6750), and on a first 401 forces a session refresh and retries once.

    The session store and the network are parameters: `getSession(i, force)` is what the i-th
    call to `getSession` in this request resolves to, and `fetch(j, request)` is the response to
    the j-th request sent, or the message `fetch` rejects with when the request fails on the
    network. The result records the calls made, so the contracts can state how many
    requests and refreshes a call costs. */
module ApiClient {
  import opened Wrappers
  import opened Json
  import Text

  /** A NextAuth session: its `idToken` and `error` members, `None` when absent. */
  datatype Session = Session(idToken: Option<Json>, error: Option<Json>)

  /** The `options` argument: method, extra headers and the body before serialization. */
  datatype Options = Options(httpMethod: string, headers: map<string, string>, body: Option<Json>)

  /** What is handed to `fetch`; `body` is the value `JSON.stringify` serializes, `None` for no
      body. */
  datatype Request = Request(url: string, httpMethod: string, headers: map<string, string>, body: Option<Json>)

  /** A response: status, status text, and what `response.json()` gives, a value or the
      message of the parse error it rejects with. */
  datatype HttpResponse = HttpResponse(status: int, statusText: string, json: Result<Json, string>)

  /** How a call settles: resolved with a value, or rejected with an Error of this message. */
  datatype Outcome = Returned(value: Json) | Threw(message: string)

  /** The environment of one call: the configured gateway base URL (`""` when unset), the session
      store and the network. A request the network refuses is a `Failure` with `fetch`'s message. */
  datatype Env = Env(
    baseUrl: string,
    getSession: (nat, bool) -> Option<Session>,
    fetch: (nat, Request) -> Result<HttpResponse, string>)

  /** The calls made so far: the `force` flag of each `getSession` call, and each request sent. */
  datatype Trace = Trace(sessionCalls: seq<bool>, fetches: seq<Request>)

  datatype CallResult = CallResult(outcome: Outcome, trace: Trace)

  /** The options of a call that passes only a method: no extra headers and no body. The
      settings actions and the profile provider fetch and delete this way. */
  const GetOptions := Options("GET", map[], None)
  const DeleteOptions := Options("DELETE", map[], None)
  /** The API version a call uses when its caller names none. */
  const DefaultVersion := "v1"

  const AuthRequired := "Authentication required."
  const GatewayMissing := "API Gateway URL is not configured. Check NEXT_PUBLIC_API_GATEWAY_URL."
  const RefreshFailed := "Failed to refresh token and authenticate."
  const UnknownError := "An unknown error occurred"

  /** `response.ok`. */
  predicate IsOk(status: int) {
    200 <= status <= 299
  }

  /** A session that lets a request go out: present, with a truthy ID token. */
  predicate Usable(s: Option<Session>) {
    s.Some? && JsTruthy(s.value.idToken)
  }

  /** A refreshed session the client retries with: usable and without an error. */
  predicate Refreshed(s: Option<Session>) {
    Usable(s) && !JsTruthy(s.value.error)
  }

  /** The request sent for `endpoint` with the given ID token. */
  function BuildRequest(baseUrl: string, endpoint: string, options: Options, version: string, idToken: Json): (r: Request)
    ensures r.url == baseUrl + "/api/" + version + "/" + endpoint
    ensures r.httpMethod == options.httpMethod
    ensures r.headers.Keys == options.headers.Keys + {"Authorization", "Content-Type"}
    ensures r.headers["Authorization"] == "Bearer " + JsString(idToken)
    ensures r.headers["Content-Type"] == "application/json"
    ensures forall h :: h in options.headers && h != "Authorization" && h != "Content-Type" ==>
              r.headers[h] == options.headers[h]
    ensures r.body.Some? <==> JsTruthy(options.body)
    ensures r.body.Some? ==> r.body == options.body
  {
    var headers := options.headers["Authorization" := "Bearer " + JsString(idToken)]["Content-Type" := "application/json"];
    var body := if JsTruthy(options.body) then options.body else None;
    Request(baseUrl + "/api/" + version + "/" + endpoint, options.httpMethod, headers, body)
  }

  /** Whether a parsed error body carries a truthy `message`. */
  predicate HasMessage(v: Json) {
    v.Obj? && "message" in v.fields && JsTruthyValue(v.fields["message"])
  }

  /** The message of the Error thrown for a failed response that is not retried. */
  function FailureMessage(response: HttpResponse): (m: string)
    // A parsed object with a truthy `message`: that message.
    ensures response.json.Success? && HasMessage(response.json.value)
            ==> m == JsString(response.json.value.fields["message"])
    // Any other parsed value but `null` (an object whose `message` is missing or falsy, an array,
    // a string, a number, a boolean): the status.
    ensures response.json.Success? && response.json.value != Null && !HasMessage(response.json.value)
            ==> m == "Request failed with status " + Text.Decimal(response.status)
    // A parsed `null`: reading its `message` throws, and that TypeError is what is thrown.
    ensures response.json == Success(Null) ==> m == ReadError("null", "message")
    // A body that does not parse: the status text, or the fixed message without one.
    ensures response.json.Failure? && response.statusText != "" ==> m == response.statusText
    ensures response.json.Failure? && response.statusText == "" ==> m == UnknownError
  {
    var errorData := match response.json
      case Success(v) => v
      case Failure(_) => Obj(map["message" := Str(if response.statusText != "" then response.statusText else UnknownError)]);
    match JsMember(Some(errorData), "message")
    case Failure(typeError) => typeError
    case Success(message) =>
      if JsTruthy(message) then JsString(message.value)
      else "Request failed with status " + Text.Decimal(response.status)
  }

  /** One invocation of `callAuthenticatedApi(endpoint, options, version, retried)`, continuing
      the calls already recorded in `t`. */
  function Attempt(env: Env, endpoint: string, options: Options, version: string, retried: bool, t: Trace): (r: CallResult)
    ensures |t.sessionCalls| < |r.trace.sessionCalls| && r.trace.sessionCalls[..|t.sessionCalls|] == t.sessionCalls
    ensures r.trace.sessionCalls[|t.sessionCalls|] == false
    ensures |t.fetches| <= |r.trace.fetches| <= |t.fetches| + (if retried then 1 else 2)
    ensures r.trace.fetches[..|t.fetches|] == t.fetches
    ensures |r.trace.fetches| == |t.fetches| <==> !Usable(env.getSession(|t.sessionCalls|, false)) || env.baseUrl == ""
    decreases if retried then 0 else 1
  {
    var session := env.getSession(|t.sessionCalls|, false);
    var t1 := t.(sessionCalls := t.sessionCalls + [false]);
    if !Usable(session) then
      CallResult(Threw(AuthRequired), t1)
    else
      var request := BuildRequest(env.baseUrl, endpoint, options, version, session.value.idToken.value);
      if env.baseUrl == "" then
        CallResult(Threw(GatewayMissing), t1)
      else
        var t2 := t1.(fetches := t1.fetches + [request]);
        match env.fetch(|t1.fetches|, request)
        case Failure(networkError) => CallResult(Threw(networkError), t2)
        case Success(response) =>
          if !IsOk(response.status) then
            if response.status == 401 && !retried then
              var refreshed := env.getSession(|t2.sessionCalls|, true);
              var t3 := t2.(sessionCalls := t2.sessionCalls + [true]);
              if Refreshed(refreshed) then
                Attempt(env, endpoint, options, version, true, t3)
              else if refreshed.Some? && JsTruthy(refreshed.value.error) then
                CallResult(Threw(JsString(refreshed.value.error.value)), t3)
              else
                CallResult(Threw(RefreshFailed), t3)
            else
              CallResult(Threw(FailureMessage(response)), t2)
          else if response.status == 204 then
            CallResult(Returned(Null), t2)
          else
            match response.json
            case Success(v) => CallResult(Returned(v), t2)
            case Failure(parseError) => CallResult(Threw(parseError), t2)
  }

  /** `callAuthenticatedApi(endpoint, options, version)` as the rest of the front end calls it. */
  function Call(env: Env, endpoint: string, options: Options, version: string): (r: CallResult)
    // At most one retry: never more than two requests.
    ensures 1 <= |r.trace.sessionCalls| <= 3 && |r.trace.fetches| <= 2
    // No usable session: rejected before any request is sent.
    ensures !Usable(env.getSession(0, false)) ==>
              r == CallResult(Threw(AuthRequired), Trace([false], []))
    // No gateway configured: rejected before any request is sent.
    ensures Usable(env.getSession(0, false)) && env.baseUrl == "" ==>
              r == CallResult(Threw(GatewayMissing), Trace([false], []))
    // The first request carries the first session's token to `<base>/api/<version>/<endpoint>`.
    ensures Usable(env.getSession(0, false)) && env.baseUrl != "" ==>
              1 <= |r.trace.fetches| &&
              r.trace.fetches[0] == BuildRequest(env.baseUrl, endpoint, options, version, env.getSession(0, false).value.idToken.value)
    // A first request the network refuses rejects the call with `fetch`'s message: no refresh, no
    // retry.
    ensures Usable(env.getSession(0, false)) && env.baseUrl != "" &&
            env.fetch(0, BuildRequest(env.baseUrl, endpoint, options, version, env.getSession(0, false).value.idToken.value)).Failure? ==>
              var request := BuildRequest(env.baseUrl, endpoint, options, version, env.getSession(0, false).value.idToken.value);
              r == CallResult(Threw(env.fetch(0, request).error), Trace([false], [request]))
    // A second request is sent only after a 401 and a successful forced refresh.
    ensures |r.trace.fetches| == 2 ==>
              env.fetch(0, r.trace.fetches[0]).Success? && env.fetch(0, r.trace.fetches[0]).value.status == 401 &&
              Refreshed(env.getSession(1, true)) &&
              r.trace.sessionCalls == [false, true, false]
    ensures |r.trace.fetches| == 2 ==>
              Usable(env.getSession(2, false)) &&
              r.trace.fetches[1] == BuildRequest(env.baseUrl, endpoint, options, version, env.getSession(2, false).value.idToken.value)
  {
    Attempt(env, endpoint, options, version, false, Trace([], []))
  }

  /** The outcome of a call whose first response is `first`, when no refresh is involved. */
  function Settle(response: HttpResponse): (o: Outcome)
    ensures IsOk(response.status) && response.status == 204 ==> o == Returned(Null)
    ensures IsOk(response.status) && response.status != 204 && response.json.Success? ==> o == Returned(response.json.value)
    ensures IsOk(response.status) && response.status != 204 && response.json.Failure? ==> o == Threw(response.json.error)
    ensures !IsOk(response.status) ==> o == Threw(FailureMessage(response))
  {
    if !IsOk(response.status) then Threw(FailureMessage(response))
    else if response.status == 204 then Returned(Null)
    else match response.json
      case Success(v) => Returned(v)
      case Failure(parseError) => Threw(parseError)
  }

  /** A first response other than 401 settles the call with no refresh and no retry. */
  lemma NoRetryWithout401(env: Env, endpoint: string, options: Options, version: string)
    requires Usable(env.getSession(0, false)) && env.baseUrl != ""
    requires var first := env.fetch(0, BuildRequest(env.baseUrl, endpoint, options, version, env.getSession(0, false).value.idToken.value));
             first.Success? && first.value.status != 401
    ensures var r := Call(env, endpoint, options, version);
            var first := env.fetch(0, BuildRequest(env.baseUrl, endpoint, options, version, env.getSession(0, false).value.idToken.value));
            r.outcome == Settle(first.value) && r.trace.sessionCalls == [false] && |r.trace.fetches| == 1
  {
  }

  /** After a 401 and a successful refresh, the call settles as the retried request does; a
      retried request that gets 401 again is not refreshed a second time, and one the network
      refuses rejects with `fetch`'s message. */
  lemma RetryOnce(env: Env, endpoint: string, options: Options, version: string)
    requires Usable(env.getSession(0, false)) && env.baseUrl != ""
    requires var first := env.fetch(0, BuildRequest(env.baseUrl, endpoint, options, version, env.getSession(0, false).value.idToken.value));
             first.Success? && first.value.status == 401
    requires Refreshed(env.getSession(1, true)) && Usable(env.getSession(2, false))
    ensures var r := Call(env, endpoint, options, version);
            var second := env.fetch(1, BuildRequest(env.baseUrl, endpoint, options, version, env.getSession(2, false).value.idToken.value));
            r.outcome == (if second.Success? then Settle(second.value) else Threw(second.error)) &&
            r.trace.sessionCalls == [false, true, false] && |r.trace.fetches| == 2
  {
  }

  /** A failed refresh after a 401 rejects with the session's error, or with the fixed message
      when the session has none, and sends nothing more. */
  lemma RefreshFailure(env: Env, endpoint: string, options: Options, version: string)
    requires Usable(env.getSession(0, false)) && env.baseUrl != ""
    requires var first := env.fetch(0, BuildRequest(env.baseUrl, endpoint, options, version, env.getSession(0, false).value.idToken.value));
             first.Success? && first.value.status == 401
    requires !Refreshed(env.getSession(1, true))
    ensures var r := Call(env, endpoint, options, version);
            var s := env.getSession(1, true);
            r.trace == Trace([false, true], r.trace.fetches) && |r.trace.fetches| == 1 &&
            r.outcome == Threw(if s.Some? && JsTruthy(s.value.error) then JsString(s.value.error.value) else RefreshFailed)
  {
  }
}
