/** The `users` Cloud Function (functions/users/main.py): the signed-in user's profile document,
    read (with the stored GitHub token decrypted), created or merged, updated, and deleted.

    Each route is a method over the `users` collection; what it answers and writes is stated by a
    function of the collection before the request. KMS decryption is the parameter `decrypt`
    (base64 decoding, the KMS call and UTF-8 decoding together, `None` when any of them raises);
    `storeDown` says that the store raises on this request's first access. */
module UsersFunction {
  import opened Wrappers
  import opened Json
  import opened PyHttp
  import opened DocumentStore

  /** The function's environment: `CORS_ALLOWED_ORIGINS`, and whether the four KMS variables are
      all set. */
  datatype Config = Config(allowedOrigins: string, kmsConfigured: bool)

  const AllowedHeaders := "Content-Type, Authorization"
  const TokenField := "github_access_token"
  const TokenErrorField := "github_access_token_error"
  const NoAuthInfo := "Authentication information not found."
  const BadAuthInfo := "Invalid authentication information format."
  const NoSubjectClaim := "User ID claim ('sub') not found in authentication information."
  const NoPayload := "No JSON payload provided or payload is null."
  const BadPayload := "Invalid JSON payload or Content-Type."
  const ConsentRequired := "'cookieConsent' field must be present and set to 'true'."
  const PutBodyRequired := "Request body must be a non-empty JSON object for PUT."
  const ReadFailed := "An error occurred while retrieving user data."
  const SaveFailed := "An error occurred while saving user data."
  const UpdateFailed := "An error occurred while updating user data."
  const DeleteFailed := "An error occurred while deleting user data."

  /** The reply `_get_auth_user_info` produces when there are no usable claims. */
  function AuthError(info: UserInfo): (r: Reply)
    requires !info.Claims?
    ensures r.status == (if info.NoHeader? then 401 else 400)
  {
    match info
    case NoHeader => JsonReply(401, ErrorBody(NoAuthInfo))
    case Undecodable => JsonReply(400, ErrorBody(BadAuthInfo))
    case NoSubject => JsonReply(400, ErrorBody(NoSubjectClaim))
  }

  /** `_get_request_data`: the parsed body, or the 400 reply for an unreadable or `null` body. */
  function RequestData(body: Body): (r: Result<Json, Reply>)
    ensures r.Success? <==> body.Parsed? && body.value != Null
    ensures r.Success? ==> r.value == body.value
    ensures body.Unreadable? ==> r == Failure(JsonReply(400, ErrorBody(BadPayload)))
    ensures body == Parsed(Null) ==> r == Failure(JsonReply(400, ErrorBody(NoPayload)))
  {
    match body
    case Unreadable => Failure(JsonReply(400, ErrorBody(BadPayload)))
    case Parsed(v) => if v == Null then Failure(JsonReply(400, ErrorBody(NoPayload))) else Success(v)
  }

  /** `_decrypt_data_kms`: `None` without the KMS configuration, otherwise what KMS gives. */
  function Decrypt(cfg: Config, decrypt: string -> Option<string>, ciphertext: string): (r: Option<string>)
    ensures !cfg.kmsConfigured ==> r == None
    ensures cfg.kmsConfigured ==> r == decrypt(ciphertext)
  {
    if cfg.kmsConfigured then decrypt(ciphertext) else None
  }

  /** Whether the document holds a token to decrypt: a non-empty string. */
  predicate HasEncryptedToken(doc: Doc) {
    TokenField in doc && doc[TokenField].Str? && doc[TokenField].s != ""
  }

  /** The document as GET returns it: a stored token replaced by its decryption, or by `null` with
      an error marker when decryption fails. */
  function WithDecryptedToken(doc: Doc, cfg: Config, decrypt: string -> Option<string>): (r: Doc)
    ensures !HasEncryptedToken(doc) ==> r == doc
    ensures HasEncryptedToken(doc) && Decrypt(cfg, decrypt, doc[TokenField].s).Some? ==>
              r == doc[TokenField := Str(Decrypt(cfg, decrypt, doc[TokenField].s).value)]
    ensures HasEncryptedToken(doc) && Decrypt(cfg, decrypt, doc[TokenField].s).None? ==>
              r == doc[TokenField := Null][TokenErrorField := Str("decryption_failed")]
  {
    if !HasEncryptedToken(doc) then doc
    else match Decrypt(cfg, decrypt, doc[TokenField].s)
      case Some(plain) => doc[TokenField := Str(plain)]
      case None => doc[TokenField := Null][TokenErrorField := Str("decryption_failed")]
  }

  /** Decryption is only attempted on a stored string token: for any other document, which
      decryption KMS would give does not matter. */
  lemma NoDecryptWithoutToken(doc: Doc, cfg: Config, d1: string -> Option<string>, d2: string -> Option<string>)
    requires !HasEncryptedToken(doc)
    ensures WithDecryptedToken(doc, cfg, d1) == WithDecryptedToken(doc, cfg, d2) == doc
  {
  }

  /** Without the KMS configuration, every stored token reads back as `null` with the marker. */
  lemma UnconfiguredKmsHidesToken(doc: Doc, decrypt: string -> Option<string>, origins: string)
    requires HasEncryptedToken(doc)
    ensures var r := WithDecryptedToken(doc, Config(origins, false), decrypt);
            r[TokenField] == Null && r[TokenErrorField] == Str("decryption_failed")
  {
  }

  // ---------------------------------------------------------------- GET

  /** What GET answers for the user `sub` in collection `docs`. */
  function GetReply(docs: map<string, Doc>, sub: Json, cfg: Config, decrypt: string -> Option<string>, storeDown: bool): (r: Reply)
    ensures DocId(sub).None? || storeDown ==> r == JsonReply(500, ErrorBody(ReadFailed))
    ensures DocId(sub).Some? && !storeDown && DocId(sub).value !in docs ==> r == Reply(204, Empty, map[])
    ensures DocId(sub).Some? && !storeDown && DocId(sub).value in docs ==>
              r == JsonReply(200, Obj(WithDecryptedToken(docs[DocId(sub).value], cfg, decrypt)))
  {
    match DocId(sub)
    case None => JsonReply(500, ErrorBody(ReadFailed))
    case Some(id) =>
      if storeDown then JsonReply(500, ErrorBody(ReadFailed))
      else if id in docs then JsonReply(200, Obj(WithDecryptedToken(docs[id], cfg, decrypt)))
      else Reply(204, Empty, map[])
  }

  method GetUserData(users: Collection, claims: map<string, Json>, cfg: Config, decrypt: string -> Option<string>, storeDown: bool)
    returns (reply: Reply)
    requires SubjectClaim in claims
    ensures reply == GetReply(users.docs, claims[SubjectClaim], cfg, decrypt, storeDown)
  {
    var id := DocId(claims[SubjectClaim]);
    if id.None? || storeDown {
      return JsonReply(500, ErrorBody(ReadFailed));
    }
    var doc := users.Get(id.value);
    if doc.None? {
      return Reply(204, Empty, map[]);
    }
    var data := doc.value;
    if HasEncryptedToken(data) {
      var plain := Decrypt(cfg, decrypt, data[TokenField].s);
      if plain.Some? {
        data := data[TokenField := Str(plain.value)];
      } else {
        data := data[TokenField := Null];
        data := data[TokenErrorField := Str("decryption_failed")];
      }
    }
    reply := JsonReply(200, Obj(data));
  }

  // ---------------------------------------------------------------- POST

  /** Whether the POST body gives consent: an object whose `cookieConsent` is the string "true". */
  predicate ConsentGiven(data: Json) {
    data.Obj? && PyGet(data.fields, "cookieConsent") == Str("true")
  }

  /** The document POST stores: the user's ID, e-mail and name from the claims, overlaid by the
      request's fields, with every `None` dropped. */
  function PostDocument(claims: map<string, Json>, request: map<string, Json>): (d: Doc)
    requires SubjectClaim in claims
    ensures forall k :: k in d ==> d[k] != Null
    // The request's fields win, the user's `uid` included.
    ensures forall k :: k in request && request[k] != Null ==> k in d && d[k] == request[k]
    ensures forall k :: k in request && request[k] == Null ==> k !in d
    ensures "uid" !in request && claims[SubjectClaim] != Null ==> "uid" in d && d["uid"] == claims[SubjectClaim]
    ensures forall k :: k in d ==> k in request || k in {"uid", "email", "displayName"}
  {
    var base := map["uid" := claims[SubjectClaim], "email" := PyGet(claims, "email"), "displayName" := PyGet(claims, "name")];
    WithoutNulls(base + request)
  }

  /** A consenting POST always stores and echoes the consent itself. */
  lemma ConsentIsStored(claims: map<string, Json>, data: Json)
    requires SubjectClaim in claims && ConsentGiven(data)
    ensures var d := PostDocument(claims, data.fields); "cookieConsent" in d && d["cookieConsent"] == Str("true")
  {
  }

  /** Only the string "true" consents: the boolean `true` does not. */
  lemma BooleanConsentRefused()
    ensures !ConsentGiven(Obj(map["cookieConsent" := Bool(true)]))
    ensures ConsentGiven(Obj(map["cookieConsent" := Str("true")]))
  {
  }

  /** What POST answers and stores, for parsed claims and body. */
  function PostOutcome(docs: map<string, Doc>, claims: map<string, Json>, body: Body, storeDown: bool): (r: (Reply, map<string, Doc>))
    requires SubjectClaim in claims
    ensures r.1 != docs ==> r.0.status == 200
    ensures RequestData(body).Failure? ==> r == (RequestData(body).error, docs)
    ensures RequestData(body).Success? && !ConsentGiven(body.value) ==> r == (JsonReply(400, ErrorBody(ConsentRequired)), docs)
    ensures RequestData(body).Success? && ConsentGiven(body.value) && (DocId(claims[SubjectClaim]).None? || storeDown) ==>
              r == (JsonReply(500, ErrorBody(SaveFailed)), docs)
    // A consenting body, a string ID and a working store: the POST succeeds.
    ensures RequestData(body).Success? && ConsentGiven(body.value) && DocId(claims[SubjectClaim]).Some? && !storeDown ==>
              r.0.status == 200
    ensures r.0.status == 200 ==>
              ConsentGiven(body.value) && DocId(claims[SubjectClaim]).Some? && !storeDown &&
              var id := DocId(claims[SubjectClaim]).value;
              var stored := PostDocument(claims, body.value.fields);
              r.0 == JsonReply(200, Obj(stored)) &&
              r.1 == docs[id := SetMerge(if id in docs then Some(docs[id]) else None, Puts(stored), "")]
  {
    match RequestData(body)
    case Failure(e) => (e, docs)
    case Success(data) =>
      if !ConsentGiven(data) then (JsonReply(400, ErrorBody(ConsentRequired)), docs)
      else match DocId(claims[SubjectClaim])
        case None => (JsonReply(500, ErrorBody(SaveFailed)), docs)
        case Some(id) =>
          if storeDown then (JsonReply(500, ErrorBody(SaveFailed)), docs)
          else
            var stored := PostDocument(claims, data.fields);
            (JsonReply(200, Obj(stored)), docs[id := SetMerge(if id in docs then Some(docs[id]) else None, Puts(stored), "")])
  }

  method CreateUpdateUserData(users: Collection, claims: map<string, Json>, body: Body, storeDown: bool) returns (reply: Reply)
    requires SubjectClaim in claims
    modifies users
    ensures (reply, users.docs) == PostOutcome(old(users.docs), claims, body, storeDown)
  {
    var data := RequestData(body);
    if data.Failure? {
      return data.error;
    }
    if !ConsentGiven(data.value) {
      return JsonReply(400, ErrorBody(ConsentRequired));
    }
    var id := DocId(claims[SubjectClaim]);
    if id.None? || storeDown {
      return JsonReply(500, ErrorBody(SaveFailed));
    }
    var stored := PostDocument(claims, data.value.fields);
    users.Set(id.value, Puts(stored), "");
    reply := JsonReply(200, Obj(stored));
  }

  /** For a new user, GET after a successful POST returns what the POST echoed, when the stored
      fields hold no token to decrypt. */
  lemma PostThenGet(claims: map<string, Json>, body: Body, cfg: Config, decrypt: string -> Option<string>, docs: map<string, Doc>)
    requires SubjectClaim in claims
    requires DocId(claims[SubjectClaim]).Some? && DocId(claims[SubjectClaim]).value !in docs
    requires PostOutcome(docs, claims, body, false).0.status == 200
    requires !HasEncryptedToken(PostDocument(claims, body.value.fields))
    ensures GetReply(PostOutcome(docs, claims, body, false).1, claims[SubjectClaim], cfg, decrypt, false)
         == PostOutcome(docs, claims, body, false).0
  {
    SetMergeIntoNothing(PostDocument(claims, body.value.fields), "");
  }

  // ---------------------------------------------------------------- PUT

  /** What PUT answers and stores. */
  function PutOutcome(docs: map<string, Doc>, claims: map<string, Json>, body: Body, storeDown: bool): (r: (Reply, map<string, Doc>))
    requires SubjectClaim in claims
    ensures r.1 != docs ==> r.0.status == 200
    ensures RequestData(body).Failure? ==> r == (RequestData(body).error, docs)
    // An empty or non-object body is refused before anything is written.
    ensures RequestData(body).Success? && !(body.value.Obj? && body.value.fields != map[]) ==>
              r == (JsonReply(400, ErrorBody(PutBodyRequired)), docs)
    // A readable non-empty object: 500 without a string ID or with a failing store; otherwise 200
    // exactly when the document exists, and 404 when it does not.
    ensures RequestData(body).Success? && body.value.Obj? && body.value.fields != map[] ==>
              ((DocId(claims[SubjectClaim]).None? || storeDown) ==> r == (JsonReply(500, ErrorBody(UpdateFailed)), docs)) &&
              (DocId(claims[SubjectClaim]).Some? && !storeDown ==>
                 (DocId(claims[SubjectClaim]).value in docs <==> r.0.status == 200) &&
                 (DocId(claims[SubjectClaim]).value !in docs ==> r.0.status == 404))
    ensures r.0.status == 404 ==>
              DocId(claims[SubjectClaim]).Some? && DocId(claims[SubjectClaim]).value !in docs && r.1 == docs &&
              r.0 == JsonReply(404, ErrorBody("User document " + DocId(claims[SubjectClaim]).value + " not found to update."))
    ensures r.0.status == 200 ==>
              DocId(claims[SubjectClaim]).Some? &&
              var id := DocId(claims[SubjectClaim]).value;
              id in docs &&
              r.1 == docs[id := Updated(docs[id], Puts(body.value.fields), "")] &&
              r.0 == JsonReply(200, Obj(r.1[id]))
  {
    match RequestData(body)
    case Failure(e) => (e, docs)
    case Success(data) =>
      if !(data.Obj? && data.fields != map[]) then (JsonReply(400, ErrorBody(PutBodyRequired)), docs)
      else match DocId(claims[SubjectClaim])
        case None => (JsonReply(500, ErrorBody(UpdateFailed)), docs)
        case Some(id) =>
          if storeDown then (JsonReply(500, ErrorBody(UpdateFailed)), docs)
          else if id !in docs then (JsonReply(404, ErrorBody("User document " + id + " not found to update.")), docs)
          else
            var after := docs[id := Updated(docs[id], Puts(data.fields), "")];
            (JsonReply(200, Obj(after[id])), after)
  }

  method UpdateUserDataPut(users: Collection, claims: map<string, Json>, body: Body, storeDown: bool) returns (reply: Reply)
    requires SubjectClaim in claims
    modifies users
    ensures (reply, users.docs) == PutOutcome(old(users.docs), claims, body, storeDown)
  {
    var data := RequestData(body);
    if data.Failure? {
      return data.error;
    }
    if !(data.value.Obj? && data.value.fields != map[]) {
      return JsonReply(400, ErrorBody(PutBodyRequired));
    }
    var id := DocId(claims[SubjectClaim]);
    if id.None? || storeDown {
      return JsonReply(500, ErrorBody(UpdateFailed));
    }
    var found := users.Update(id.value, Puts(data.value.fields), "");
    if !found {
      return JsonReply(404, ErrorBody("User document " + id.value + " not found to update."));
    }
    var after := users.Get(id.value);
    reply := JsonReply(200, Obj(after.value));
  }

  /** A PUT changes exactly the fields it names. */
  lemma PutTouchesOnlyNamedFields(docs: map<string, Doc>, claims: map<string, Json>, body: Body)
    requires SubjectClaim in claims && PutOutcome(docs, claims, body, false).0.status == 200
    ensures var id := DocId(claims[SubjectClaim]).value;
            var after := PutOutcome(docs, claims, body, false).1[id];
            (forall k :: k in body.value.fields ==> k in after && after[k] == body.value.fields[k]) &&
            (forall k :: k in docs[id] && k !in body.value.fields ==> k in after && after[k] == docs[id][k])
  {
  }

  // ---------------------------------------------------------------- DELETE

  /** What DELETE answers and leaves. */
  function DeleteOutcome(docs: map<string, Doc>, sub: Json, storeDown: bool): (r: (Reply, map<string, Doc>))
    ensures DocId(sub).None? || storeDown ==> r == (JsonReply(500, ErrorBody(DeleteFailed)), docs)
    ensures DocId(sub).Some? && !storeDown ==>
              var id := DocId(sub).value;
              r.1 == docs - {id} &&
              (id in docs ==> r.0 == JsonReply(200, Obj(map["message" := Str("User data for " + id + " deleted successfully.")]))) &&
              (id !in docs ==> r.0 == Reply(204, Empty, map[]))
  {
    match DocId(sub)
    case None => (JsonReply(500, ErrorBody(DeleteFailed)), docs)
    case Some(id) =>
      if storeDown then (JsonReply(500, ErrorBody(DeleteFailed)), docs)
      else if id in docs then (JsonReply(200, Obj(map["message" := Str("User data for " + id + " deleted successfully.")])), docs - {id})
      else (Reply(204, Empty, map[]), docs)
  }

  method DeleteUserData(users: Collection, sub: Json, storeDown: bool) returns (reply: Reply)
    modifies users
    ensures (reply, users.docs) == DeleteOutcome(old(users.docs), sub, storeDown)
  {
    var id := DocId(sub);
    if id.None? || storeDown {
      return JsonReply(500, ErrorBody(DeleteFailed));
    }
    var doc := users.Get(id.value);
    if doc.Some? {
      users.Delete(id.value);
      reply := JsonReply(200, Obj(map["message" := Str("User data for " + id.value + " deleted successfully.")]));
    } else {
      reply := Reply(204, Empty, map[]);
    }
  }

  /** Deleting twice answers 200 and then 204, and leaves the same collection as deleting once. */
  lemma DeleteTwice(docs: map<string, Doc>, id: string)
    requires id in docs
    ensures var first := DeleteOutcome(docs, Str(id), false);
            var second := DeleteOutcome(first.1, Str(id), false);
            first.0.status == 200 && second.0.status == 204 && second.1 == first.1 && id !in second.1
  {
  }

  // ---------------------------------------------------------------- dispatch

  /** One request to the function: a preflight is answered at once; every other request is
      authenticated and handed to its route; every reply carries the CORS headers. */
  method Handle(users: Collection, req: Request, cfg: Config, decode: string -> Option<Json>,
                decrypt: string -> Option<string>, storeDown: bool) returns (reply: Reply)
    modifies users
    ensures reply.headers.Keys >= CorsHeaderNames && reply.headers["Access-Control-Allow-Origin"] == cfg.allowedOrigins
    ensures req.httpMethod == "OPTIONS" ==> reply.status == 204 && reply.payload == Empty && users.docs == old(users.docs)
    ensures req.httpMethod !in {"OPTIONS", "GET", "HEAD", "POST", "PUT", "DELETE"} ==> reply.status == 405 && users.docs == old(users.docs)
    ensures req.httpMethod in {"GET", "HEAD", "POST", "PUT", "DELETE"} ==>
              var info := DecodeUserInfo(Lookup(req.headers, UserInfoHeader), decode, true);
              (!info.Claims? ==> reply == WithCors(AuthError(info), cfg.allowedOrigins, AllowedHeaders) && users.docs == old(users.docs)) &&
              (info.Claims? && req.httpMethod in {"GET", "HEAD"} ==>
                 reply == WithCors(GetReply(old(users.docs), info.claims[SubjectClaim], cfg, decrypt, storeDown), cfg.allowedOrigins, AllowedHeaders)) &&
              (info.Claims? && req.httpMethod == "POST" ==>
                 var (inner, docs) := PostOutcome(old(users.docs), info.claims, req.body, storeDown);
                 reply == WithCors(inner, cfg.allowedOrigins, AllowedHeaders) && users.docs == docs) &&
              (info.Claims? && req.httpMethod == "PUT" ==>
                 var (inner, docs) := PutOutcome(old(users.docs), info.claims, req.body, storeDown);
                 reply == WithCors(inner, cfg.allowedOrigins, AllowedHeaders) && users.docs == docs) &&
              (info.Claims? && req.httpMethod == "DELETE" ==>
                 var (inner, docs) := DeleteOutcome(old(users.docs), info.claims[SubjectClaim], storeDown);
                 reply == WithCors(inner, cfg.allowedOrigins, AllowedHeaders) && users.docs == docs)
    ensures req.httpMethod in {"GET", "HEAD"} ==> users.docs == old(users.docs)
  {
    var inner: Reply;
    if req.httpMethod == "OPTIONS" {
      inner := Reply(204, Empty, map[]);
    } else if req.httpMethod !in {"GET", "HEAD", "POST", "PUT", "DELETE"} {
      inner := Reply(405, ErrorPage, map[]);
    } else {
      var info := DecodeUserInfo(Lookup(req.headers, UserInfoHeader), decode, true);
      if !info.Claims? {
        inner := AuthError(info);
      } else if req.httpMethod in {"GET", "HEAD"} {
        inner := GetUserData(users, info.claims, cfg, decrypt, storeDown);
      } else if req.httpMethod == "POST" {
        inner := CreateUpdateUserData(users, info.claims, req.body, storeDown);
      } else if req.httpMethod == "PUT" {
        inner := UpdateUserDataPut(users, info.claims, req.body, storeDown);
      } else {
        inner := DeleteUserData(users, info.claims[SubjectClaim], storeDown);
      }
    }
    reply := WithCors(inner, cfg.allowedOrigins, AllowedHeaders);
  }
}
