/** What the Python Cloud Functions share: the Flask request and reply they see, the API Gateway
    user-info header and its decoding, the CORS headers added to replies, and the outcomes of the
    outbound HTTP calls made with `requests`. */
module PyHttp {
  import opened Wrappers
  import opened Json
  import Text

  /** The JSON body as `request.get_json(silent=False)` sees it: a parse or Content-Type error, or
      the parsed value (a literal `null` included). */
  datatype Body = Unreadable | Parsed(value: Json)

  /** A request: method, headers, query arguments, the JSON body and the raw body bytes. Header
      names are matched exactly. */
  datatype Request = Request(httpMethod: string, headers: map<string, string>, args: map<string, string>,
                             body: Body, rawBody: string)

  /** `req.headers.get(name)` / `req.args.get(name)`, and `DocumentSnapshot.get(name)` as the store
      implements it, which raises `KeyError` (here `None`) when the document has no such field. */
  function Lookup<V>(m: map<string, V>, name: string): (r: Option<V>)
    ensures r.Some? <==> name in m
    ensures r.Some? ==> r.value == m[name]
  {
    if name in m then Some(m[name]) else None
  }

  /** Whether a looked-up string is truthy in Python: present and non-empty. */
  predicate Given(v: Option<string>) {
    v.Some? && v.value != ""
  }

  /** A reply's body: empty, a JSON document (`jsonify` or a returned dict), text with its MIME type,
      a redirect (302, with the target in `Location`), Flask's own error page, or an HTML page
      whose script posts `message` to the window that opened it, addressed to `targetOrigin`, and
      then closes its own window. */
  datatype Payload =
    | Empty
    | JsonBody(value: Json)
    | Text(text: string, mimeType: string)
    | Redirect(location: string)
    | ErrorPage
    | PopupPage(message: Json, targetOrigin: string)

  datatype Reply = Reply(status: int, payload: Payload, headers: map<string, string>)

  /** `{"error": message}`. */
  function ErrorBody(message: string): Json {
    Obj(map["error" := Str(message)])
  }

  function JsonReply(status: int, value: Json): Reply {
    Reply(status, JsonBody(value), map[])
  }

  /** `redirect(location)`. */
  function RedirectReply(location: string): Reply {
    Reply(302, Redirect(location), map[])
  }

  /** What Flask answers when a view raises: its 500 page, without the view's headers. */
  function UncaughtError(): Reply {
    Reply(500, ErrorPage, map[])
  }

  const UserInfoHeader := "X-Apigateway-Api-Userinfo"
  const SubjectClaim := "sub"
  const CorsMethods := "GET, POST, PUT, DELETE, OPTIONS"
  const CorsHeaderNames: set<string> :=
    {"Access-Control-Allow-Origin", "Access-Control-Allow-Methods", "Access-Control-Allow-Headers", "Access-Control-Max-Age"}

  /** The reply with the four CORS headers set. */
  function WithCors(r: Reply, allowedOrigins: string, allowedHeaders: string): (c: Reply)
    ensures c.status == r.status && c.payload == r.payload
    ensures c.headers.Keys == r.headers.Keys + CorsHeaderNames
    ensures c.headers["Access-Control-Allow-Origin"] == allowedOrigins && c.headers["Access-Control-Max-Age"] == "3600"
    ensures forall h :: h in r.headers && h !in CorsHeaderNames ==> c.headers[h] == r.headers[h]
  {
    r.(headers := r.headers["Access-Control-Allow-Origin" := allowedOrigins]
                            ["Access-Control-Allow-Methods" := CorsMethods]
                            ["Access-Control-Allow-Headers" := allowedHeaders]
                            ["Access-Control-Max-Age" := "3600"])
  }

  // ---------------------------------------------------------------- the user-info header

  /** `h + "=" * (-len(h) % 4)`: the header padded with '=' to a multiple of four characters, as
      base64 (section 4 of RFC 4648) requires. Python's `%` and Dafny's agree here: the divisor is
      positive, so the remainder is never negative. */
  function Pad(h: string): (r: string)
    ensures h <= r && |r| % 4 == 0
    ensures 0 <= |r| - |h| <= 3
    ensures forall i :: |h| <= i < |r| ==> r[i] == '='
  {
    h + seq((-|h|) % 4, _ => '=')
  }

  /** Padding adds nothing exactly when the length is already a multiple of four, and padding a
      padded header changes nothing. */
  lemma PadFixedPoints(h: string)
    ensures Pad(h) == h <==> |h| % 4 == 0
    ensures Pad(Pad(h)) == Pad(h)
  {
    assert |Pad(h)| == |h| + (-|h|) % 4;
    var p := Pad(h);
    assert (-|p|) % 4 == 0;
    assert Pad(p) == p + [];
  }

  /** The claims in a user-info header, or why there are none: no header, a header that is not
      base64 of a UTF-8 JSON object, or an object without a truthy `sub`. */
  datatype UserInfo = Claims(claims: map<string, Json>) | NoHeader | Undecodable | NoSubject

  /** The header decoded as the functions do it: padded first when `pad` holds, then decoded with
      `decode` (base64, UTF-8 and `json.loads` together; `None` when any of them raises). A
      decoded value that is not an object has no `.get`, which is one more decoding failure. */
  function DecodeUserInfo(header: Option<string>, decode: string -> Option<Json>, pad: bool): (r: UserInfo)
    ensures !Given(header) ==> r == NoHeader
    ensures r.Claims? ==> Given(header) && SubjectClaim in r.claims && PyTruthy(r.claims[SubjectClaim])
    ensures r.Claims? ==> decode(if pad then Pad(header.value) else header.value) == Some(Obj(r.claims))
    ensures Given(header) && decode(if pad then Pad(header.value) else header.value).None? ==> r == Undecodable
    // A decoded value: not an object, an object without a truthy `sub`, or the claims themselves.
    ensures Given(header) && decode(if pad then Pad(header.value) else header.value).Some? ==>
              var v := decode(if pad then Pad(header.value) else header.value).value;
              (!v.Obj? ==> r == Undecodable) &&
              (v.Obj? && !PyTruthy(PyGet(v.fields, SubjectClaim)) ==> r == NoSubject) &&
              (v.Obj? && PyTruthy(PyGet(v.fields, SubjectClaim)) ==> r == Claims(v.fields))
  {
    if !Given(header) then NoHeader
    else
      match decode(if pad then Pad(header.value) else header.value)
      case None => Undecodable
      case Some(v) =>
        if !v.Obj? then Undecodable
        else if !PyTruthy(PyGet(v.fields, SubjectClaim)) then NoSubject
        else Claims(v.fields)
  }

  /** The ID of the user's document. `document(user_id)` joins the ID into a path, which raises
      `TypeError` unless the ID is a string. */
  function DocId(userId: Json): (r: Option<string>)
    ensures r.Some? <==> userId.Str?
    ensures r.Some? ==> r.value == userId.s
  {
    if userId.Str? then Some(userId.s) else None
  }

  // ---------------------------------------------------------------- outbound HTTP

  /** An outbound call made with `requests`: the response (status, text, and the body parsed as
      JSON, `None` when it is not JSON), or no response at all (a connection error or timeout). */
  datatype HttpOutcome = Responded(status: int, text: string, json: Option<Json>) | NoResponse

  /** Whether `raise_for_status()` raises: for every 4xx and 5xx status. */
  predicate RaisesForStatus(status: int) {
    400 <= status < 600
  }

  /** The parsed body of a call that got through `raise_for_status()` and `.json()`, or `None`
      when either raised `requests.RequestException` (a non-JSON body raises
      `requests.JSONDecodeError`, which is one). */
  function JsonOf(o: HttpOutcome): (r: Option<Json>)
    ensures r.Some? <==> o.Responded? && !RaisesForStatus(o.status) && o.json.Some?
    ensures r.Some? ==> r.value == o.json.value
  {
    if o.Responded? && !RaisesForStatus(o.status) then o.json else None
  }
}
