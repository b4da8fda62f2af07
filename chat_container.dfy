/** `ChatContainer` (front/components/ChatContainer.jsx), the older chat controller: it calls the
    gateway directly for the session and the agent run, shows the raw reply text, and has a single
    loading flag. Its send runs in segments separated by awaits, modelled as in `UseChat`: each
    segment is a method of `ChatContainerState` specified by a transition function, and a `Pending`
    value carries the closure across the await. */
module ChatContainer {
  import opened Wrappers
  import opened Json
  import Text
  import ApiClient
  import opened ChatApiService

  const NoUserId := "User ID is not available. Cannot send message."
  const UserInfoMissing := "Error: User information missing."
  const SessionFallback := "Could not start a chat session."
  const ReplyFallback := "Failed to get a response from the bot."
  const InvalidReply := "Invalid response structure from the bot."

  /** The component's state; `error` is `None` for null. */
  datatype State = State(sessionId: Json, messages: seq<Message>, isLoading: bool, error: Option<string>)

  /** Where a send is suspended: awaiting the session request, awaiting the run request, or
      finished. */
  datatype Pending =
    | Finished
    | AwaitingSession(text: string, appName: Json)
    | AwaitingReply(text: string, appName: Json, sessionId: Json)

  datatype Step = Step(state: State, pending: Pending)

  function Initial(): State {
    State(Null, [], false, None)
  }

  /** The gateway request a suspended send is waiting on: endpoint and options. */
  function RequestOf(p: Pending): (r: (string, ApiClient.Options))
    requires !p.Finished?
    ensures p.AwaitingSession? ==> r.0 == SessionEndpoint && r.1.httpMethod == "POST" && r.1.body.None?
    // The agent reads back, from the run request, the session and the text of this send.
    ensures p.AwaitingReply? ==> r.0 == RunEndpoint && r.1.body.Some? &&
                                 RunRequestTurn(r.1.body.value) == Some((p.sessionId, p.text))
  {
    match p
    case AwaitingSession(_, _) => (SessionEndpoint, SessionOptions())
    case AwaitingReply(text, appName, sid) => (RunEndpoint, RunOptions(text, appName, sid))
  }

  function SystemMessage(now: int, text: string): (m: Message)
    ensures m.role == System && m.text == Some(Str(text))
  {
    Message(Str("syserr-" + Text.Decimal(now)), System, Some(Str(text)))
  }

  /** The checks applied to the run reply. The emptiness test is written `!response.length === 0`,
      which compares a boolean with 0 and never holds, so only a falsy reply is caught there. The
      text of the last part is kept as it is. */
  function ReadReply(reply: ApiClient.Outcome, now: int): (r: Result<Message, string>)
    ensures reply.Threw? ==> r == Failure(reply.message)
    ensures reply.Returned? && !JsTruthyValue(reply.value) ==> r == Failure(InvalidReply)
    // A list whose last event lacks content fails the content check; so does an empty list.
    ensures reply.Returned? && reply.value.Arr? &&
            (reply.value.items == [] || LacksContent(reply.value.items[|reply.value.items| - 1])) ==>
              r == Failure(NoContent)
    ensures reply.Returned? && WellFormedReply(reply.value) ==>
              r == Success(Message(BotId(reply.value.items[|reply.value.items| - 1], now), Model, ReplyText(reply.value)))
    ensures r.Success? ==> r.value.role == Model && JsTruthyValue(r.value.id)
  {
    match reply
    case Threw(m) => Failure(m)
    case Returned(v) =>
      if !JsTruthyValue(v) then Failure(InvalidReply)
      else match AtLast(v, "response")
        case Failure(e) => Failure(e)
        case Success(lastPart) =>
          if !JsTruthy(lastPart) then Failure(NoContent)
          else
            var content := JsMember(lastPart, "content").value;
            if !JsTruthy(content) then Failure(NoContent)
            else
              var parts := JsMember(content, "parts").value;
              if !JsTruthy(parts) then Failure(NoContent)
              else match AtLast(parts.value, "lastPart.content.parts")
                case Failure(e) => Failure(e)
                case Success(lastItem) =>
                  match JsMember(lastItem, "text")
                  case Failure(typeError) => Failure(typeError)
                  case Success(botText) => Success(Message(BotId(lastPart.value, now), Model, botText))
  }

  /** An empty list of events is not caught by the emptiness test; it fails at the content check
      instead, with a different message than `sendChatMessage` gives. */
  lemma EmptyReplyFallsThrough(now: int, render: Option<Json> -> Result<string, string>)
    ensures ReadReply(ApiClient.Returned(Arr([])), now) == Failure(NoContent)
    ensures SendChatMessage(ApiClient.Returned(Arr([])), now, render) == Failure(EmptyReply)
  {
  }

  /** An event with an empty list of parts is not rejected by the content check: reading `text`
      from the missing last part raises a TypeError. */
  lemma EmptyPartsRaises(id: Json, now: int)
    ensures var event := Obj(map["id" := id, "content" := Obj(map["parts" := Arr([])])]);
            ReadReply(ApiClient.Returned(Arr([event])), now) == Failure(ReadError("undefined", "text"))
  {
  }

  /** Whether message `m` is a system message whose text includes `e`. */
  predicate Mentions(m: Message, e: string) {
    m.role == System && m.text.Some? && m.text.value.Str? && Text.Contains(m.text.value.s, e)
  }

  /** The banner under the log: shown when there is an error that no system message includes. */
  predicate ErrorBannerVisible(s: State) {
    s.error.Some? && s.error.value != "" &&
    forall i :: 0 <= i < |s.messages| ==> !Mentions(s.messages[i], s.error.value)
  }

  /** Whether `text.trim()` is empty. */
  predicate Blank(text: string) {
    Text.Trim(text) == ""
  }

  /** `handleSendMessage(text)` up to its first await, from a render whose session ID is
      `sessionId`. */
  function SendStart(s: State, sessionId: Json, userId: Json, appName: Json, text: string, now: int): (r: Step)
    // No user: the error and a system message with a different, fixed text, whatever the input.
    ensures !JsTruthyValue(userId) ==>
              r == Step(s.(error := Some(NoUserId), messages := s.messages + [SystemMessage(now, UserInfoMissing)]), Finished)
    ensures JsTruthyValue(userId) && Blank(text) ==> r == Step(s, Finished)
    ensures JsTruthyValue(userId) && !Blank(text) ==>
              r.state == s.(messages := s.messages + [UserMessage(now, text)], isLoading := true, error := None) &&
              r.pending == (if JsTruthyValue(sessionId) then AwaitingReply(text, appName, sessionId) else AwaitingSession(text, appName))
  {
    if Blank(text) || !JsTruthyValue(userId) then
      if !JsTruthyValue(userId) then
        Step(s.(error := Some(NoUserId), messages := s.messages + [SystemMessage(now, UserInfoMissing)]), Finished)
      else Step(s, Finished)
    else Accept(s, sessionId, appName, text, now)
  }

  /** The part of `handleSendMessage` after the input checks: the user's message is logged, the
      flag goes up, and the run request goes out on the known session or a session is requested. */
  function Accept(s: State, sessionId: Json, appName: Json, text: string, now: int): (r: Step)
    ensures r.state == s.(messages := s.messages + [UserMessage(now, text)], isLoading := true, error := None)
    ensures r.pending == (if JsTruthyValue(sessionId) then AwaitingReply(text, appName, sessionId) else AwaitingSession(text, appName))
  {
    var s1 := s.(messages := s.messages + [UserMessage(now, text)], isLoading := true, error := None);
    if JsTruthyValue(sessionId) then Step(s1, AwaitingReply(text, appName, sessionId))
    else Step(s1.(isLoading := true, error := None), AwaitingSession(text, appName))
  }

  /** The rest of `acquireSession` and of the send once the session request settles. */
  function SessionSettled(s: State, p: Pending, reply: ApiClient.Outcome, now: int): (r: Step)
    requires p.AwaitingSession?
    // The loading flag is dropped even when the send goes on to await the reply.
    ensures !r.state.isLoading
    ensures s.messages <= r.state.messages
    ensures AcquireChatSession(reply).Success? ==>
              r == Step(s.(sessionId := AcquireChatSession(reply).value, isLoading := false),
                        AwaitingReply(p.text, p.appName, AcquireChatSession(reply).value))
    ensures AcquireChatSession(reply).Failure? ==>
              var shown := MessageOr(AcquireChatSession(reply).error, SessionFallback);
              r.pending == Finished && r.state.error == Some(shown) &&
              r.state.messages == s.messages + [SystemMessage(now, "Error: " + shown)]
  {
    match AcquireChatSession(reply)
    case Success(id) => Step(s.(sessionId := id, isLoading := false), AwaitingReply(p.text, p.appName, id))
    case Failure(m) =>
      var shown := MessageOr(m, SessionFallback);
      Step(s.(error := Some(shown), messages := s.messages + [SystemMessage(now, "Error: " + shown)], isLoading := false), Finished)
  }

  /** The rest of the send once the run request settles. */
  function ReplySettled(s: State, p: Pending, reply: ApiClient.Outcome, now: int): (r: Step)
    requires p.AwaitingReply?
    ensures r.pending == Finished && !r.state.isLoading && r.state.sessionId == s.sessionId
    ensures ReadReply(reply, now).Success? ==> r.state.messages == s.messages + [ReadReply(reply, now).value] && r.state.error == s.error
    ensures ReadReply(reply, now).Failure? ==>
              var shown := MessageOr(ReadReply(reply, now).error, ReplyFallback);
              r.state.error == Some(shown) && r.state.messages == s.messages + [SystemMessage(now, "Error: " + shown)]
  {
    match ReadReply(reply, now)
    case Success(m) => Step(s.(messages := s.messages + [m], isLoading := false), Finished)
    case Failure(e) =>
      var shown := MessageOr(e, ReplyFallback);
      Step(s.(error := Some(shown), messages := s.messages + [SystemMessage(now, "Error: " + shown)], isLoading := false), Finished)
  }

  /** A message appended as `Error: <e>` mentions `e`. */
  lemma ReportMentions(now: int, e: string)
    ensures Mentions(SystemMessage(now, "Error: " + e), e)
  {
    Text.ContainsSuffix("Error: ", e);
  }

  /** When a failed call is reported in the log, the banner stays hidden: the error is shown once. */
  lemma FailureShownOnce(s: State, p: Pending, reply: ApiClient.Outcome, now: int)
    requires p.AwaitingReply?
    requires ReadReply(reply, now).Failure?
    ensures !ErrorBannerVisible(ReplySettled(s, p, reply, now).state)
  {
    var shown := MessageOr(ReadReply(reply, now).error, ReplyFallback);
    var after := ReplySettled(s, p, reply, now).state;
    ReportMentions(now, shown);
    assert after.messages[|after.messages| - 1] == SystemMessage(now, "Error: " + shown);
  }

  /** A send without a user both logs `Error: User information missing.` and shows the banner,
      because that log text does not include the error text. */
  lemma MissingUserShownTwice(s: State, userId: Json, appName: Json, text: string, now: int)
    requires !JsTruthyValue(userId)
    requires forall i :: 0 <= i < |s.messages| ==> !Mentions(s.messages[i], NoUserId)
    ensures ErrorBannerVisible(SendStart(s, s.sessionId, userId, appName, text, now).state)
  {
    Text.NotContainsLonger(UserInfoMissing, NoUserId);
    var after := SendStart(s, s.sessionId, userId, appName, text, now).state;
    forall i | 0 <= i < |after.messages|
      ensures !Mentions(after.messages[i], NoUserId)
    {
      if i == |s.messages| {
        assert after.messages[i] == SystemMessage(now, UserInfoMissing);
      } else {
        assert after.messages[i] == s.messages[i];
      }
    }
  }

  /** The first send of a session re-enables the input while the reply is still awaited. */
  lemma NotLoadingWhileFirstReplyAwaited(s: State, userId: Json, appName: Json, text: string, id: Json, now: int)
    requires JsTruthyValue(userId) && !Blank(text) && !JsTruthyValue(s.sessionId)
    requires JsTruthyValue(id)
    ensures var a := SendStart(s, s.sessionId, userId, appName, text, now);
            var b := SessionSettled(a.state, a.pending, ApiClient.Returned(Obj(map["id" := id])), now);
            b.pending == AwaitingReply(text, appName, id) && !b.state.isLoading
  {
  }

  /** One step of the component's life. */
  datatype Event =
    | SendTyped(sessionId: Json, userId: Json, appName: Json, text: string, now: int)
    | SessionReturned(p: Pending, reply: ApiClient.Outcome, now: int)
    | RunReturned(p: Pending, reply: ApiClient.Outcome, now: int)

  function Apply(s: State, e: Event): (r: State)
    ensures s.messages <= r.messages
  {
    match e
    case SendTyped(sid, userId, appName, text, now) => SendStart(s, sid, userId, appName, text, now).state
    case SessionReturned(p, reply, now) => if p.AwaitingSession? then SessionSettled(s, p, reply, now).state else s
    case RunReturned(p, reply, now) => if p.AwaitingReply? then ReplySettled(s, p, reply, now).state else s
  }

  function Run(s: State, events: seq<Event>): State
    decreases |events|
  {
    if events == [] then s else Run(Apply(s, events[0]), events[1..])
  }

  /** Whatever sends and replies interleave, the message log only grows. */
  lemma {:induction false} LogOnlyGrows(s: State, events: seq<Event>)
    ensures s.messages <= Run(s, events).messages
    decreases |events|
  {
    if events != [] {
      LogOnlyGrows(Apply(s, events[0]), events[1..]);
    }
  }

  /** The component's state, updated in place by each segment of `handleSendMessage`. */
  class ChatContainerState {
    var sessionId: Json
    var messages: seq<Message>
    var isLoading: bool
    var error: Option<string>

    function Snapshot(): State
      reads this
    {
      State(sessionId, messages, isLoading, error)
    }

    constructor ()
      ensures Snapshot() == Initial()
    {
      sessionId := Null;
      messages := [];
      isLoading := false;
      error := None;
    }

    /** `handleSendMessage(text)` up to its first await, in a render whose session ID was
        `renderedSessionId`. */
    method HandleSendMessage(renderedSessionId: Json, userId: Json, appName: Json, text: string, now: int) returns (pending: Pending)
      modifies this
      ensures Step(Snapshot(), pending) == SendStart(old(Snapshot()), renderedSessionId, userId, appName, text, now)
    {
      if Blank(text) || !JsTruthyValue(userId) {
        if !JsTruthyValue(userId) {
          ReportMissingUser(now);
        }
        return Finished;
      }
      pending := AcceptSend(renderedSessionId, appName, text, now);
    }

    /** The error and log entry for a send without a user. */
    method ReportMissingUser(now: int)
      modifies this
      ensures Snapshot() == old(Snapshot()).(error := Some(NoUserId), messages := old(messages) + [SystemMessage(now, UserInfoMissing)])
    {
      error := Some(NoUserId);
      messages := messages + [SystemMessage(now, UserInfoMissing)];
    }

    /** The part of `handleSendMessage` after the input checks, up to its first await. */
    method AcceptSend(renderedSessionId: Json, appName: Json, text: string, now: int) returns (pending: Pending)
      modifies this
      ensures Step(Snapshot(), pending) == Accept(old(Snapshot()), renderedSessionId, appName, text, now)
    {
      messages := messages + [UserMessage(now, text)];
      isLoading := true;
      error := None;
      if JsTruthyValue(renderedSessionId) {
        return AwaitingReply(text, appName, renderedSessionId);
      }
      // `acquireSession` up to its await.
      isLoading := true;
      error := None;
      return AwaitingSession(text, appName);
    }

    /** The send resumed when the session request settles. */
    method OnSession(p: Pending, reply: ApiClient.Outcome, now: int) returns (next: Pending)
      requires p.AwaitingSession?
      modifies this
      ensures Step(Snapshot(), next) == SessionSettled(old(Snapshot()), p, reply, now)
    {
      var acquired := AcquireChatSession(reply);
      match acquired {
        case Success(id) =>
          sessionId := id;
          next := AwaitingReply(p.text, p.appName, id);
        case Failure(m) =>
          var shown := MessageOr(m, SessionFallback);
          error := Some(shown);
          messages := messages + [SystemMessage(now, "Error: " + shown)];
          next := Finished;
      }
      isLoading := false;
    }

    /** The send resumed when the run request settles. */
    method OnReply(p: Pending, reply: ApiClient.Outcome, now: int) returns (next: Pending)
      requires p.AwaitingReply?
      modifies this
      ensures Step(Snapshot(), next) == ReplySettled(old(Snapshot()), p, reply, now)
    {
      var read := ReadReply(reply, now);
      match read {
        case Success(m) =>
          messages := messages + [m];
        case Failure(e) =>
          var shown := MessageOr(e, ReplyFallback);
          error := Some(shown);
          messages := messages + [SystemMessage(now, "Error: " + shown)];
      }
      isLoading := false;
      next := Finished;
    }
  }
}
