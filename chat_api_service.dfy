/** The chat service calls of front/lib/chatApiService.js: acquiring an agent session and
    sending one user message to the agent, with the checks applied to each reply. The reply is
    the outcome of `callAuthenticatedApi`; the markdown renderer is a parameter. */
module ChatApiService {
  import opened Wrappers
  import opened Json
  import Text
  import ApiClient

  /** Who a chat message is from. */
  datatype Role = User | Model | System

  /** A chat message as the chat views keep it: its `id`, `role` and `text` (`None` when the
      text is undefined). */
  datatype Message = Message(id: Json, role: Role, text: Option<Json>)

  /** The message both chat views log for what the user typed: a `user-<now>` ID and exactly
      the text. */
  function UserMessage(now: int, text: string): (m: Message)
    ensures m.role == User && m.text == Some(Str(text))
  {
    Message(Str("user-" + Text.Decimal(now)), User, Some(Str(text)))
  }

  const SessionEndpoint := "agent/session"
  const RunEndpoint := "agent/run"
  const SessionMissing := "Failed to acquire session or session ID missing."
  const EmptyReply := "Invalid response structure from the bot (empty or null)."
  const NoContent := "Response does not contain expected content structure."

  /** The options of the session request: a POST with no body. */
  function SessionOptions(): (o: ApiClient.Options)
    ensures o.httpMethod == "POST" && o.headers == map[] && o.body.None?
  {
    ApiClient.Options("POST", map[], None)
  }

  /** The body of a run request: the user's text as the single part of a new user turn, in the
      given session of the given agent application, without streaming. */
  function RunPayload(text: string, appName: Json, sessionId: Json): (j: Json)
    ensures j.Obj? && j.fields.Keys == {"appName", "userId", "sessionId", "newMessage", "streaming"}
    // The user ID sent is always the literal "user", and streaming is off.
    ensures j.fields["appName"] == appName && j.fields["sessionId"] == sessionId
    ensures j.fields["userId"] == Str("user") && j.fields["streaming"] == Bool(false)
  {
    Obj(map[
      "appName" := appName,
      "userId" := Str("user"),
      "sessionId" := sessionId,
      "newMessage" := Obj(map["role" := Str("user"), "parts" := Arr([Obj(map["text" := Str(text)])])]),
      "streaming" := Bool(false)])
  }

  /** The options of the run request. */
  function RunOptions(text: string, appName: Json, sessionId: Json): (o: ApiClient.Options)
    ensures o.httpMethod == "POST" && o.headers == map["Content-Type" := "application/json"]
    ensures o.body == Some(RunPayload(text, appName, sessionId))
  {
    ApiClient.Options("POST", map["Content-Type" := "application/json"], Some(RunPayload(text, appName, sessionId)))
  }

  /** How the agent reads a run request: the session it names and the text of the new user turn. */
  function RunRequestTurn(body: Json): Option<(Json, string)> {
    if body.Obj? && "sessionId" in body.fields && "newMessage" in body.fields then
      var turn := body.fields["newMessage"];
      if turn.Obj? && "parts" in turn.fields && turn.fields["parts"].Arr? && |turn.fields["parts"].items| == 1 then
        var part := turn.fields["parts"].items[0];
        if part.Obj? && "text" in part.fields && part.fields["text"].Str? then
          Some((body.fields["sessionId"], part.fields["text"].s))
        else None
      else None
    else None
  }

  /** The request body the client serializes is the payload, and the agent reads back exactly the
      session and text it was given. */
  lemma RunRequestRoundTrip(text: string, appName: Json, sessionId: Json)
    ensures var opts := RunOptions(text, appName, sessionId);
            JsTruthy(opts.body) && RunRequestTurn(opts.body.value) == Some((sessionId, text))
  {
  }

  /** The checks `acquireChatSession` applies to the session reply: a truthy `id` is the session
      ID; anything else is an error. A rejected call passes its error through. */
  function AcquireChatSession(reply: ApiClient.Outcome): (r: Result<Json, string>)
    ensures reply.Threw? ==> r == Failure(reply.message)
    ensures r.Success? <==> reply.Returned? && reply.value.Obj? && "id" in reply.value.fields
                            && JsTruthyValue(reply.value.fields["id"])
    ensures r.Success? ==> r.value == reply.value.fields["id"] && JsTruthyValue(r.value)
    ensures reply.Returned? && r.Failure? ==> r.error == SessionMissing
  {
    match reply
    case Threw(m) => Failure(m)
    case Returned(v) =>
      if !JsTruthyValue(v) then Failure(SessionMissing)
      else match JsMember(Some(v), "id")
        case Failure(typeError) => Failure(typeError)
        case Success(id) => if JsTruthy(id) then Success(id.value) else Failure(SessionMissing)
  }

  /** `v.at(-1)` where `v` is named `what` in the source: the last item of an array or the last
      character of a string, undefined when empty; other values have no `at` method. */
  function AtLast(v: Json, what: string): (r: Result<Option<Json>, string>)
    ensures v.Arr? ==> r == Success(if v.items == [] then None else Some(v.items[|v.items| - 1]))
    ensures !v.Arr? && !v.Str? ==> r.Failure?
  {
    match v
    case Arr(xs) => Success(if xs == [] then None else Some(xs[|xs| - 1]))
    case Str(s) => Success(if s == "" then None else Some(Str([s[|s| - 1]])))
    case _ => Failure(what + ".at is not a function")
  }

  /** The shape of a well-formed run reply: a non-empty list of events whose last event has
      content with a non-empty list of parts, the last part an object. */
  predicate WellFormedReply(v: Json) {
    v.Arr? && v.items != [] &&
    var last := v.items[|v.items| - 1];
    last.Obj? && "content" in last.fields &&
    var content := last.fields["content"];
    content.Obj? && "parts" in content.fields &&
    var parts := content.fields["parts"];
    parts.Arr? && parts.items != [] && parts.items[|parts.items| - 1].Obj?
  }

  /** An event the client can take a part from: an object whose `content` is an object with a
      non-empty array or string of `parts`. */
  predicate HasParts(event: Json) {
    event.Obj? && "content" in event.fields &&
    var content := event.fields["content"];
    content.Obj? && "parts" in content.fields &&
    var parts := content.fields["parts"];
    (parts.Arr? && parts.items != []) || (parts.Str? && parts.s != "")
  }

  /** The event fails the content check: it is falsy, or its `content` is, or that content's
      `parts` is. */
  predicate LacksContent(event: Json) {
    !JsTruthyValue(event) || !JsTruthy(JsOptMember(Some(event), "content")) ||
    !JsTruthy(JsOptMember(JsOptMember(Some(event), "content"), "parts"))
  }

  /** The event's `content.parts`, read only once the content check has passed. */
  function PartsOf(event: Json): Option<Json> {
    JsOptMember(JsOptMember(Some(event), "content"), "parts")
  }

  /** The text of a well-formed reply: the `text` of the last part of the last event. */
  function ReplyText(v: Json): Option<Json>
    requires WellFormedReply(v)
  {
    var last := v.items[|v.items| - 1];
    var parts := last.fields["content"].fields["parts"].items;
    var part := parts[|parts| - 1];
    if "text" in part.fields then Some(part.fields["text"]) else None
  }

  /** The ID a bot message gets: the event's own truthy `id`, or `bot-<now>`. */
  function BotId(event: Json, now: int): (id: Json)
    ensures JsTruthyValue(id)
  {
    match JsMember(Some(event), "id")
    case Success(x) => if JsTruthy(x) then x.value else Str("bot-" + Text.Decimal(now))
    case Failure(_) => Str("bot-" + Text.Decimal(now))
  }

  /** The checks and extraction `sendChatMessage` applies to the run reply, with `now` the clock
      reading and `render` what `marked.parse` gives for the bot text. */
  function SendChatMessage(reply: ApiClient.Outcome, now: int, render: Option<Json> -> Result<string, string>): (r: Result<Message, string>)
    ensures reply.Threw? ==> r == Failure(reply.message)
    ensures reply.Returned? && (!JsTruthyValue(reply.value) || reply.value == Arr([])) ==> r == Failure(EmptyReply)
    // A non-empty list whose last event lacks content, or whose parts are an empty list or string,
    // fails the content check.
    ensures reply.Returned? && reply.value.Arr? && reply.value.items != [] ==>
              var event := reply.value.items[|reply.value.items| - 1];
              (LacksContent(event) || JsOptMember(PartsOf(event), "length") == Some(Num(0))) ==>
                r == Failure(NoContent)
    ensures reply.Returned? && WellFormedReply(reply.value) ==>
              var event := reply.value.items[|reply.value.items| - 1];
              match render(ReplyText(reply.value))
              case Success(html) => r == Success(Message(BotId(event, now), Model, Some(Str(html))))
              case Failure(e) => r == Failure(e)
    ensures r.Success? ==> reply.Returned? && reply.value.Arr? && reply.value.items != [] &&
                           HasParts(reply.value.items[|reply.value.items| - 1])
    ensures r.Success? ==> r.value.role == Model && JsTruthyValue(r.value.id) && r.value.text.Some? && r.value.text.value.Str?
  {
    match reply
    case Threw(m) => Failure(m)
    case Returned(v) =>
      if !JsTruthyValue(v) || JsMember(Some(v), "length") == Success(Some(Num(0))) then Failure(EmptyReply)
      else match AtLast(v, "response")
        case Failure(e) => Failure(e)
        case Success(lastPart) =>
          if !JsTruthy(lastPart) then Failure(NoContent)
          else
            var content := JsMember(lastPart, "content").value;
            if !JsTruthy(content) then Failure(NoContent)
            else
              var parts := JsMember(content, "parts").value;
              if !JsTruthy(parts) || JsMember(parts, "length") == Success(Some(Num(0))) then Failure(NoContent)
              else match AtLast(parts.value, "lastPart.content.parts")
                case Failure(e) => Failure(e)
                case Success(lastItem) =>
                  match JsMember(lastItem, "text")
                  case Failure(typeError) => Failure(typeError)
                  case Success(botText) =>
                    match render(botText)
                    case Failure(e) => Failure(e)
                    case Success(html) => Success(Message(BotId(lastPart.value, now), Model, Some(Str(html))))
  }

  /** Only the last event of a reply matters: earlier events are ignored. */
  lemma OnlyLastEventCounts(earlier: seq<Json>, last: Json, now: int, render: Option<Json> -> Result<string, string>)
    ensures SendChatMessage(ApiClient.Returned(Arr(earlier + [last])), now, render)
         == SendChatMessage(ApiClient.Returned(Arr([last])), now, render)
  {
    assert (earlier + [last])[|earlier + [last]| - 1] == last;
  }
}
