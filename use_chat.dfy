/** The `useChat` hook (front/hooks/useChat.js): the chat controller state machine over the
    session ID, the message log, the loading and typing flags and the error.

    `handleSendMessage` runs in segments separated by awaits. Each segment is a method of
    `ChatHook`; what the closure carries across an await is a `Pending` value; the state values a
    callback closed over when its render happened are a `View`. The session and reply calls are
    represented by their outcomes (`acquireChatSession` and `sendChatMessage` of
    front/lib/chatApiService.js). Each method is specified by a transition function on `State`;
    the lemmas about those functions are what the hook promises. */
module UseChat {
  import opened Wrappers
  import opened Json
  import Text
  import opened ChatApiService

  const NoUserId := "User ID is not available. Cannot send message."
  const SessionFallback := "Could not start a chat session."
  const ReplyFallback := "Failed to get a response from the bot."

  /** The hook's state; `error` is `None` for null. */
  datatype State = State(chatSessionId: Json, messages: seq<Message>, isLoading: bool, isBotTyping: bool, error: Option<string>)

  /** The state values a render's callbacks closed over. */
  datatype View = View(chatSessionId: Json, isLoading: bool, isBotTyping: bool)

  /** Where a send is suspended: awaiting the session call (with the view `ensureSession` closed
      over), awaiting the reply, or finished. */
  datatype Pending =
    | Finished
    | AwaitingSession(text: string, userId: Json, appName: Json, view: View)
    | AwaitingReply(text: string, userId: Json, appName: Json, sessionId: Json)

  datatype Step = Step(state: State, pending: Pending)

  /** How `ensureSession` starts: with the session it already has, refusing because a load is in
      progress, or by calling `acquireChatSession`. */
  datatype SessionStart = Existing(id: Json) | Refused | Acquiring

  function Initial(): State {
    State(Null, [], false, false, None)
  }

  function ViewOf(s: State): View {
    View(s.chatSessionId, s.isLoading, s.isBotTyping)
  }

  /** The system message that reports an error. */
  function SystemError(now: int, message: string): (m: Message)
    ensures m.role == System && m.text == Some(Str("Error: " + message))
  {
    Message(Str("syserr-" + Text.Decimal(now)), System, Some(Str("Error: " + message)))
  }

  /** Whether `text.trim()` is empty. */
  predicate Blank(text: string) {
    Text.Trim(text) == ""
  }

  /** The synchronous part of `ensureSession`, under the values it closed over. */
  function EnsureSessionStart(s: State, view: View): (r: (State, SessionStart))
    ensures JsTruthyValue(view.chatSessionId) ==> r == (s, Existing(view.chatSessionId))
    ensures !JsTruthyValue(view.chatSessionId) && view.isLoading ==> r == (s, Refused)
    ensures !JsTruthyValue(view.chatSessionId) && !view.isLoading ==>
              r.1 == Acquiring && r.0 == s.(isLoading := true, error := None)
  {
    if JsTruthyValue(view.chatSessionId) then (s, Existing(view.chatSessionId))
    else if view.isLoading then (s, Refused)
    else (s.(isLoading := true, error := None), Acquiring)
  }

  /** `handleSendMessage(text)` up to its first await, from a render showing `view`. */
  function SendStart(s: State, view: View, userId: Json, appName: Json, text: string, now: int): (r: Step)
    // Blank input changes nothing and calls nothing.
    ensures Blank(text) ==> r == Step(s, Finished)
    // No user: exactly one system message, the bare error, no call, flags untouched.
    ensures !Blank(text) && !JsTruthyValue(userId) ==>
              r.pending == Finished && r.state.messages == s.messages + [SystemError(now, NoUserId)] &&
              r.state.error == Some(NoUserId) && r.state.chatSessionId == s.chatSessionId &&
              r.state.isLoading == s.isLoading && r.state.isBotTyping == s.isBotTyping
    // Otherwise the user's message is appended first and the flags go up before any call.
    ensures !Blank(text) && JsTruthyValue(userId) ==>
              r.state.messages == s.messages + [UserMessage(now, text)] && r.state.error == None &&
              r.state.chatSessionId == s.chatSessionId && (r.pending != Finished ==> r.state.isLoading && r.state.isBotTyping)
    // A known session is reused: the reply call goes out on it.
    ensures !Blank(text) && JsTruthyValue(userId) && JsTruthyValue(view.chatSessionId) ==>
              r.pending == AwaitingReply(text, userId, appName, view.chatSessionId)
    // With no session and no load in progress, a session is requested.
    ensures !Blank(text) && JsTruthyValue(userId) && !JsTruthyValue(view.chatSessionId) && !view.isLoading ==>
              r.pending == AwaitingSession(text, userId, appName, view)
    // With no session while a load is in progress, the send stops silently with both flags down.
    ensures !Blank(text) && JsTruthyValue(userId) && !JsTruthyValue(view.chatSessionId) && view.isLoading ==>
              r.pending == Finished && !r.state.isLoading && !r.state.isBotTyping
  {
    if Blank(text) then Step(s, Finished)
    else if !JsTruthyValue(userId) then
      Step(s.(error := Some(NoUserId), messages := s.messages + [SystemError(now, NoUserId)]), Finished)
    else BeginExchange(s, view, userId, appName, text, now)
  }

  /** The part of `handleSendMessage` after the input checks and before the first await: the
      user's message goes into the log, the flags go up, and the session is found or requested. */
  function BeginExchange(s: State, view: View, userId: Json, appName: Json, text: string, now: int): (r: Step)
    ensures r.state.messages == s.messages + [UserMessage(now, text)] && r.state.error == None
    ensures r.state.chatSessionId == s.chatSessionId
    ensures r.pending != Finished ==> r.state.isLoading && r.state.isBotTyping
    ensures r.pending == Finished ==> !r.state.isLoading && !r.state.isBotTyping
  {
    var s1 := s.(messages := s.messages + [UserMessage(now, text)], isLoading := true, isBotTyping := true, error := None);
    if JsTruthyValue(view.chatSessionId) then Step(s1, AwaitingReply(text, userId, appName, view.chatSessionId))
    else
      var started := EnsureSessionStart(s1, view);
      match started.1
      case Existing(id) => Step(started.0, AwaitingReply(text, userId, appName, id))
      case Refused => Step(started.0.(isLoading := false, isBotTyping := false), Finished)
      case Acquiring => Step(started.0, AwaitingSession(text, userId, appName, view))
  }

  /** The rest of `ensureSession` and of the send once `acquireChatSession` settles. */
  function SessionSettled(s: State, p: Pending, outcome: Result<Json, string>, now: int): (r: Step)
    requires p.AwaitingSession?
    ensures s.messages <= r.state.messages
    ensures outcome.Success? && JsTruthyValue(outcome.value) ==>
              r.pending == AwaitingReply(p.text, p.userId, p.appName, outcome.value) &&
              r.state.chatSessionId == outcome.value && r.state.messages == s.messages &&
              r.state.isBotTyping == s.isBotTyping &&
              r.state.isLoading == (s.isLoading && p.view.isBotTyping)
    ensures outcome.Failure? ==>
              var shown := MessageOr(outcome.error, SessionFallback);
              r.pending == Finished && r.state.messages == s.messages + [SystemError(now, shown)] &&
              r.state.error == Some(shown) && r.state.chatSessionId == s.chatSessionId
    ensures r.pending == Finished ==> !r.state.isLoading && !r.state.isBotTyping
  {
    match outcome
    case Success(id) =>
      var s1 := s.(chatSessionId := id);
      var s2 := if !p.view.isBotTyping then s1.(isLoading := false) else s1;
      if JsTruthyValue(id) then Step(s2, AwaitingReply(p.text, p.userId, p.appName, id))
      else Step(s2.(isLoading := false, isBotTyping := false), Finished)
    case Failure(m) =>
      var shown := MessageOr(m, SessionFallback);
      var s1 := s.(error := Some(shown), messages := s.messages + [SystemError(now, shown)]);
      var s2 := if !p.view.isBotTyping then s1.(isLoading := false) else s1;
      Step(s2.(isLoading := false, isBotTyping := false), Finished)
  }

  /** The rest of the send once `sendChatMessage` settles. */
  function ReplySettled(s: State, p: Pending, outcome: Result<Message, string>, now: int): (r: Step)
    requires p.AwaitingReply?
    ensures r.pending == Finished && !r.state.isLoading && !r.state.isBotTyping
    ensures r.state.chatSessionId == s.chatSessionId
    ensures outcome.Success? ==> r.state.messages == s.messages + [outcome.value] && r.state.error == s.error
    ensures outcome.Failure? ==>
              var shown := MessageOr(outcome.error, ReplyFallback);
              r.state.messages == s.messages + [SystemError(now, shown)] && r.state.error == Some(shown)
  {
    match outcome
    case Success(m) => Step(s.(messages := s.messages + [m], isLoading := false, isBotTyping := false), Finished)
    case Failure(e) =>
      var shown := MessageOr(e, ReplyFallback);
      Step(s.(error := Some(shown), messages := s.messages + [SystemError(now, shown)], isLoading := false, isBotTyping := false), Finished)
  }

  /** A whole send from a quiescent render of `s`, with the outcomes the session and reply calls
      settle with and the clock readings of the three segments. */
  function Send(s: State, userId: Json, appName: Json, text: string,
                session: Result<Json, string>, reply: Result<Message, string>, t0: int, t1: int, t2: int): State
  {
    var a := SendStart(s, ViewOf(s), userId, appName, text, t0);
    if a.pending.AwaitingReply? then ReplySettled(a.state, a.pending, reply, t2).state
    else if a.pending.AwaitingSession? then
      var b := SessionSettled(a.state, a.pending, session, t1);
      if b.pending.AwaitingReply? then ReplySettled(b.state, b.pending, reply, t2).state else b.state
    else a.state
  }

  /** Every send that gets past the input checks ends with both flags down. */
  lemma FlagsClearedAfterSend(s: State, userId: Json, appName: Json, text: string,
                              session: Result<Json, string>, reply: Result<Message, string>, t0: int, t1: int, t2: int)
    requires !Blank(text) && JsTruthyValue(userId)
    ensures var e := Send(s, userId, appName, text, session, reply, t0, t1, t2);
            !e.isLoading && !e.isBotTyping
  {
    var a := SendStart(s, ViewOf(s), userId, appName, text, t0);
    if a.pending.AwaitingSession? {
      var b := SessionSettled(a.state, a.pending, session, t1);
      if b.pending.AwaitingReply? {
        var c := ReplySettled(b.state, b.pending, reply, t2);
      }
    } else if a.pending.AwaitingReply? {
      var c := ReplySettled(a.state, a.pending, reply, t2);
    }
  }

  /** Once a session ID is held, a send never consults the session call: its result is the same
      whatever that call would settle with. */
  lemma SessionReused(s: State, userId: Json, appName: Json, text: string,
                      session1: Result<Json, string>, session2: Result<Json, string>,
                      reply: Result<Message, string>, t0: int, t1: int, t2: int)
    requires JsTruthyValue(s.chatSessionId)
    ensures Send(s, userId, appName, text, session1, reply, t0, t1, t2)
         == Send(s, userId, appName, text, session2, reply, t0, t1, t2)
  {
  }

  /** A first send whose session call succeeds keeps the session ID, so the next send reuses it. */
  lemma SessionKeptAfterFirstSend(s: State, userId: Json, appName: Json, text: string, id: Json,
                                  reply: Result<Message, string>, t0: int, t1: int, t2: int)
    requires !Blank(text) && JsTruthyValue(userId) && !JsTruthyValue(s.chatSessionId) && !s.isLoading
    requires JsTruthyValue(id)
    ensures Send(s, userId, appName, text, Success(id), reply, t0, t1, t2).chatSessionId == id
  {
  }

  /** After the session arrives during a send, `isLoading` is already false while the reply is
      awaited, because `ensureSession` closed over `isBotTyping == false`. */
  lemma LoadingDroppedBeforeReply(s: State, userId: Json, appName: Json, text: string, id: Json, t0: int, t1: int)
    requires !Blank(text) && JsTruthyValue(userId) && !JsTruthyValue(s.chatSessionId) && !s.isLoading && !s.isBotTyping
    requires JsTruthyValue(id)
    ensures var a := SendStart(s, ViewOf(s), userId, appName, text, t0);
            var b := SessionSettled(a.state, a.pending, Success(id), t1);
            b.pending.AwaitingReply? && !b.state.isLoading && b.state.isBotTyping
  {
  }

  /** One step of the hook's life, each from some earlier render or suspended send. */
  datatype Event =
    | SendTyped(view: View, userId: Json, appName: Json, text: string, now: int)
    | SessionReturned(p: Pending, outcome: Result<Json, string>, now: int)
    | ReplyReturned(p: Pending, reply: Result<Message, string>, now: int)

  function Apply(s: State, e: Event): (r: State)
    ensures s.messages <= r.messages
  {
    match e
    case SendTyped(view, userId, appName, text, now) => SendStart(s, view, userId, appName, text, now).state
    case SessionReturned(p, outcome, now) => if p.AwaitingSession? then SessionSettled(s, p, outcome, now).state else s
    case ReplyReturned(p, reply, now) => if p.AwaitingReply? then ReplySettled(s, p, reply, now).state else s
  }

  function Run(s: State, events: seq<Event>): State
    decreases |events|
  {
    if events == [] then s else Run(Apply(s, events[0]), events[1..])
  }

  /** Whatever interleaving of sends and settled calls happens, the message log only grows:
      every earlier log is a prefix of every later one. */
  lemma {:induction false} LogOnlyGrows(s: State, events: seq<Event>)
    ensures s.messages <= Run(s, events).messages
    decreases |events|
  {
    if events != [] {
      LogOnlyGrows(Apply(s, events[0]), events[1..]);
    }
  }

  /** The hook's state, updated in place by each segment of `handleSendMessage`. */
  class ChatHook {
    var chatSessionId: Json
    var messages: seq<Message>
    var isLoading: bool
    var isBotTyping: bool
    var error: Option<string>

    function Snapshot(): State
      reads this
    {
      State(chatSessionId, messages, isLoading, isBotTyping, error)
    }

    /** The values this render's callbacks close over. */
    function Render(): View
      reads this
    {
      ViewOf(Snapshot())
    }

    constructor ()
      ensures Snapshot() == Initial()
    {
      chatSessionId := Null;
      messages := [];
      isLoading := false;
      isBotTyping := false;
      error := None;
    }

    /** `ensureSession` up to its await. */
    method EnsureSession(view: View) returns (start: SessionStart)
      modifies this
      ensures (Snapshot(), start) == EnsureSessionStart(old(Snapshot()), view)
    {
      if JsTruthyValue(view.chatSessionId) {
        return Existing(view.chatSessionId);
      }
      if view.isLoading {
        return Refused;
      }
      isLoading := true;
      error := None;
      return Acquiring;
    }

    /** `handleSendMessage(text)` up to its first await. */
    method HandleSendMessage(view: View, userId: Json, appName: Json, text: string, now: int) returns (pending: Pending)
      modifies this
      ensures Step(Snapshot(), pending) == SendStart(old(Snapshot()), view, userId, appName, text, now)
    {
      ghost var s0 := Snapshot();
      if Blank(text) {
        return Finished;
      }
      if !JsTruthyValue(userId) {
        error := Some(NoUserId);
        messages := messages + [SystemError(now, NoUserId)];
        assert Snapshot() == s0.(error := Some(NoUserId), messages := s0.messages + [SystemError(now, NoUserId)]);
        return Finished;
      }
      pending := Exchange(view, userId, appName, text, now);
    }

    /** The part of `handleSendMessage` after the input checks, up to its first await. */
    method Exchange(view: View, userId: Json, appName: Json, text: string, now: int) returns (pending: Pending)
      modifies this
      ensures Step(Snapshot(), pending) == BeginExchange(old(Snapshot()), view, userId, appName, text, now)
    {
      messages := messages + [UserMessage(now, text)];
      isLoading := true;
      isBotTyping := true;
      error := None;
      if JsTruthyValue(view.chatSessionId) {
        return AwaitingReply(text, userId, appName, view.chatSessionId);
      }
      var start := EnsureSession(view);
      match start {
        case Existing(id) =>
          pending := AwaitingReply(text, userId, appName, id);
        case Refused =>
          isLoading := false;
          isBotTyping := false;
          pending := Finished;
        case Acquiring =>
          pending := AwaitingSession(text, userId, appName, view);
      }
    }

    /** The send resumed when `acquireChatSession` settles. */
    method OnSession(p: Pending, outcome: Result<Json, string>, now: int) returns (next: Pending)
      requires p.AwaitingSession?
      modifies this
      ensures Step(Snapshot(), next) == SessionSettled(old(Snapshot()), p, outcome, now)
    {
      match outcome {
        case Success(id) =>
          chatSessionId := id;
        case Failure(m) =>
          var shown := MessageOr(m, SessionFallback);
          error := Some(shown);
          messages := messages + [SystemError(now, shown)];
      }
      if !p.view.isBotTyping {
        isLoading := false;
      }
      if outcome.Success? && JsTruthyValue(outcome.value) {
        return AwaitingReply(p.text, p.userId, p.appName, outcome.value);
      }
      isLoading := false;
      isBotTyping := false;
      return Finished;
    }

    /** The send resumed when `sendChatMessage` settles. */
    method OnReply(p: Pending, reply: Result<Message, string>, now: int) returns (next: Pending)
      requires p.AwaitingReply?
      modifies this
      ensures Step(Snapshot(), next) == ReplySettled(old(Snapshot()), p, reply, now)
    {
      match reply {
        case Success(m) =>
          messages := messages + [m];
        case Failure(e) =>
          var shown := MessageOr(e, ReplyFallback);
          error := Some(shown);
          messages := messages + [SystemError(now, shown)];
      }
      isLoading := false;
      isBotTyping := false;
      return Finished;
    }
  }
}
