/** The `useGitHubIntegration` hook (front/hooks/useGitHubIntegration.js): it reads the result
    of a redirect back from the GitHub callback, runs the popup linking protocol, and unlinks the
    account.

    A linking attempt is a popup handle (present or null), a message listener and a poll timer.
    Two signals can complete it: a same-origin success message, or a poll tick that sees the popup
    closed (or sees no popup at all). Whichever comes first tears the attempt down, so the other
    finds nothing listening. The hook's calls to its `showFeedback` and `refetchProfile`
    callbacks are recorded in the hook state, as a list of notices and a count. */
module GitHubLinking {
  import opened Wrappers
  import opened Json
  import Text

  /** A call `showFeedback(message, type)`. */
  datatype Notice = Notice(message: string, kind: string)

  const ConnectedNotice := "GitHub connected successfully!"
  const DisconnectedNotice := "GitHub disconnected successfully!"
  const BlockedError := "Popup window was blocked or failed to open."
  const BlockedNotice := "Popup window was blocked or failed to open. Please disable your popup blocker for this site and try again."
  const ConnectFallback := "Failed to initiate GitHub connection."
  const DisconnectFallback := "Failed to disconnect GitHub."
  const NoRedirectUrl := "No redirect URL provided."
  const FailurePrefix := "GitHub connection failed: "

  /** The message shown for the `github_error` code the callback redirected with. */
  function ErrorMessageFor(code: string): (m: string)
    ensures FailurePrefix <= m
    ensures code == "missing_params" ==> m == FailurePrefix + "Missing parameters."
    ensures code == "config_error" ==> m == FailurePrefix + "Server configuration error."
    ensures code == "token_exchange_failed" ==> m == FailurePrefix + "Could not get access token."
    ensures code == "user_fetch_failed" ==> m == FailurePrefix + "Could not fetch user details."
    ensures code == "api_error" ==> m == FailurePrefix + "API communication error."
    // Any other code, `internal_error` included, is shown with its underscores turned to spaces.
    ensures code !in {"missing_params", "config_error", "token_exchange_failed", "user_fetch_failed", "api_error"} ==>
              m == FailurePrefix + Text.ReplaceChar(code, '_', ' ') + "." && '_' !in m
  {
    match code
    case "missing_params" => FailurePrefix + "Missing parameters."
    case "config_error" => FailurePrefix + "Server configuration error."
    case "token_exchange_failed" => FailurePrefix + "Could not get access token."
    case "user_fetch_failed" => FailurePrefix + "Could not fetch user details."
    case "api_error" => FailurePrefix + "API communication error."
    case _ => FailurePrefix + Text.ReplaceChar(code, '_', ' ') + "."
  }

  /** What the mount effect finds in the query string. */
  datatype UrlOutcome = NoCallback | LinkedByRedirect | LinkFailed(message: string)

  /** The query parameters `github_connected` and `github_error` (`None` when absent). */
  function ReadUrlParams(connected: Option<string>, errorCode: Option<string>): (r: UrlOutcome)
    ensures connected == Some("true") ==> r == LinkedByRedirect
    ensures connected != Some("true") && errorCode.Some? && errorCode.value != "" ==> r == LinkFailed(ErrorMessageFor(errorCode.value))
    ensures r == NoCallback <==> connected != Some("true") && (errorCode.None? || errorCode.value == "")
  {
    if connected == Some("true") then LinkedByRedirect
    else if errorCode.Some? && errorCode.value != "" then LinkFailed(ErrorMessageFor(errorCode.value))
    else NoCallback
  }

  /** A linking attempt: whether `window.open` returned a handle, whether the message listener
      is registered and the poll timer running, how many refetches it made, and whether it closed
      the popup itself. */
  datatype Attempt = Attempt(hasPopup: bool, listening: bool, polling: bool, refetches: nat, closedPopup: bool)

  /** What reaches an attempt: a message event (with the popup's `closed` flag at that moment),
      or a tick of the 500 ms poll. */
  datatype Signal =
    | MessageEvent(origin: string, data: Option<Json>, popupClosed: bool)
    | PollTick(popupClosed: bool)

  /** What a signal did to the hook: nothing, a confirmed link, a closed popup, a missing popup. */
  datatype Effect = NoEffect | Linked | PopupClosed | PopupMissing

  /** The attempt right after the listener is added and the poll started. */
  function Fresh(hasPopup: bool): Attempt {
    Attempt(hasPopup, true, true, 0, false)
  }

  /** The attempt's invariant: listener and timer live and die together, an attempt refetches at
      most once, and only after it is torn down. */
  predicate Coherent(a: Attempt) {
    a.listening == a.polling && a.refetches <= 1 &&
    (a.listening ==> a.refetches == 0 && !a.closedPopup)
  }

  /** Whether `data` is the popup's success message `{source: 'github-popup', status: 'success'}`. */
  predicate IsSuccessMessage(data: Option<Json>) {
    JsOptMember(data, "source") == Some(Str("github-popup")) && JsOptMember(data, "status") == Some(Str("success"))
  }

  /** One signal delivered to one attempt on a page at `pageOrigin`. */
  function Deliver(a: Attempt, pageOrigin: string, sig: Signal): (r: (Attempt, Effect))
    requires Coherent(a)
    ensures Coherent(r.0)
    ensures r.0.hasPopup == a.hasPopup
    // A torn-down attempt ignores every signal.
    ensures !a.listening ==> r == (a, NoEffect)
    // Any completion tears the attempt down.
    ensures r.1 != NoEffect ==> a.listening && !r.0.listening && !r.0.polling
    ensures r.1 == NoEffect ==> r.0 == a
    // Only the two closing paths refetch; a missing popup does not.
    ensures r.0.refetches == a.refetches + (if r.1 == Linked || r.1 == PopupClosed then 1 else 0)
    ensures sig.MessageEvent? && a.listening ==>
              (r.1 == Linked <==> sig.origin == pageOrigin && IsSuccessMessage(sig.data))
    ensures sig.MessageEvent? && r.1 == Linked ==> r.0.closedPopup == (a.hasPopup && !sig.popupClosed)
    ensures sig.PollTick? && a.polling ==>
              (r.1 == PopupClosed <==> a.hasPopup && sig.popupClosed) && (r.1 == PopupMissing <==> !a.hasPopup)
  {
    match sig
    case MessageEvent(origin, data, popupClosed) =>
      if !a.listening || origin != pageOrigin || !IsSuccessMessage(data) then (a, NoEffect)
      else (a.(listening := false, polling := false, refetches := a.refetches + 1,
               closedPopup := a.hasPopup && !popupClosed), Linked)
    case PollTick(popupClosed) =>
      if !a.polling then (a, NoEffect)
      else if a.hasPopup && popupClosed then
        (a.(listening := false, polling := false, refetches := a.refetches + 1), PopupClosed)
      else if !a.hasPopup then
        (a.(listening := false, polling := false), PopupMissing)
      else (a, NoEffect)
  }

  /** The number of signals that completed the attempt. */
  function Completions(effects: seq<Effect>): nat {
    if effects == [] then 0
    else (if effects[0] == NoEffect then 0 else 1) + Completions(effects[1..])
  }

  /** A sequence of signals delivered in order: the final attempt and each signal's effect. */
  function Run(a: Attempt, pageOrigin: string, signals: seq<Signal>): (r: (Attempt, seq<Effect>))
    requires Coherent(a)
    ensures |r.1| == |signals|
    decreases |signals|
  {
    if signals == [] then (a, [])
    else
      var (next, effect) := Deliver(a, pageOrigin, signals[0]);
      var (last, effects) := Run(next, pageOrigin, signals[1..]);
      (last, [effect] + effects)
  }

  /** Whatever signals arrive, in whatever order: the attempt stays coherent, it completes at most
      once, and it refetches at most once. */
  lemma {:induction false} CompletesAtMostOnce(a: Attempt, pageOrigin: string, signals: seq<Signal>)
    requires Coherent(a)
    ensures var (last, effects) := Run(a, pageOrigin, signals);
            Coherent(last) && last.refetches <= 1 &&
            Completions(effects) <= (if a.listening then 1 else 0) &&
            (a.listening && !last.listening ==> Completions(effects) == 1)
    decreases |signals|
  {
    if signals != [] {
      var (next, effect) := Deliver(a, pageOrigin, signals[0]);
      CompletesAtMostOnce(next, pageOrigin, signals[1..]);
      var (last, effects) := Run(next, pageOrigin, signals[1..]);
      assert Run(a, pageOrigin, signals).1 == [effect] + effects;
      assert ([effect] + effects)[1..] == effects;
      if !next.listening && !a.listening {
        StoppedIsInert(next, pageOrigin, signals[1..]);
      }
    }
  }

  /** A torn-down attempt is left as it is by any signals. */
  lemma {:induction false} StoppedIsInert(a: Attempt, pageOrigin: string, signals: seq<Signal>)
    requires Coherent(a) && !a.listening
    ensures Run(a, pageOrigin, signals).0 == a
    ensures Completions(Run(a, pageOrigin, signals).1) == 0
    decreases |signals|
  {
    if signals != [] {
      StoppedIsInert(a, pageOrigin, signals[1..]);
      assert ([NoEffect] + Run(a, pageOrigin, signals[1..]).1)[1..] == Run(a, pageOrigin, signals[1..]).1;
    }
  }

  /** The success message followed by the poll seeing the popup closed gives one refetch and
      one teardown; so does the reverse order. */
  lemma BothSignalsRefetchOnce(pageOrigin: string, closedAtMessage: bool)
    ensures var success := MessageEvent(pageOrigin, Some(Obj(map["source" := Str("github-popup"), "status" := Str("success")])), closedAtMessage);
            var r1 := Run(Fresh(true), pageOrigin, [success, PollTick(true)]);
            var r2 := Run(Fresh(true), pageOrigin, [PollTick(true), success]);
            r1.0.refetches == 1 && r1.1 == [Linked, NoEffect] &&
            r2.0.refetches == 1 && r2.1 == [PopupClosed, NoEffect]
  {
    var success := MessageEvent(pageOrigin, Some(Obj(map["source" := Str("github-popup"), "status" := Str("success")])), closedAtMessage);
    assert IsSuccessMessage(success.data);
    var linked := Fresh(true).(listening := false, polling := false, refetches := 1, closedPopup := !closedAtMessage);
    var closed := Fresh(true).(listening := false, polling := false, refetches := 1);
    assert Deliver(Fresh(true), pageOrigin, success) == (linked, Linked);
    assert Deliver(Fresh(true), pageOrigin, PollTick(true)) == (closed, PopupClosed);
    assert [success, PollTick(true)][1..] == [PollTick(true)];
    assert [PollTick(true), success][1..] == [success];
    assert [PollTick(true)][1..] == [] && [success][1..] == [];
    assert Coherent(linked) && Deliver(linked, pageOrigin, PollTick(true)) == (linked, NoEffect);
    assert Run(linked, pageOrigin, []) == (linked, []);
    assert [NoEffect] + [] == [NoEffect];
    assert Run(linked, pageOrigin, [PollTick(true)]) == (linked, [NoEffect]);
    assert Run(closed, pageOrigin, [success]) == (closed, [NoEffect]);
  }

  /** With no popup handle (what `window.open` returns when asked for `noopener`), the first poll
      tick ends the attempt as blocked, and no later signal refetches. */
  lemma NullHandleEndsAtFirstTick(pageOrigin: string, closed: bool, later: seq<Signal>)
    ensures var r := Run(Fresh(false), pageOrigin, [PollTick(closed)] + later);
            r.0.refetches == 0 && r.1[0] == PopupMissing && Completions(r.1) == 1
  {
    var signals := [PollTick(closed)] + later;
    var next := Fresh(false).(listening := false, polling := false);
    assert Deliver(Fresh(false), pageOrigin, signals[0]) == (next, PopupMissing);
    assert signals[1..] == later;
    StoppedIsInert(next, pageOrigin, later);
    var rest := Run(next, pageOrigin, later).1;
    assert ([PopupMissing] + rest)[1..] == rest;
  }

  /** The hook's state. */
  class GitHubIntegrationHook {
    var isConnecting: bool
    var isDisconnecting: bool
    var error: string
    /** The calls made to `showFeedback`, oldest first. */
    var notices: seq<Notice>
    /** The number of calls made to `refetchProfile`. */
    var refetchCalls: nat
    /** One entry per popup attempt started. */
    var attempts: seq<Attempt>
    /** `window.location.origin`. */
    const pageOrigin: string

    ghost predicate Valid()
      reads this
    {
      forall i :: 0 <= i < |attempts| ==> Coherent(attempts[i])
    }

    constructor (pageOrigin: string)
      ensures Valid() && this.pageOrigin == pageOrigin
      ensures !isConnecting && !isDisconnecting && error == "" && notices == [] && refetchCalls == 0 && attempts == []
    {
      this.pageOrigin := pageOrigin;
      isConnecting := false;
      isDisconnecting := false;
      error := "";
      notices := [];
      refetchCalls := 0;
      attempts := [];
    }

    /** The mount effect: report the callback's redirect, if the URL carries one. */
    method ReadCallbackParams(connected: Option<string>, errorCode: Option<string>)
      modifies this
      ensures attempts == old(attempts) && isConnecting == old(isConnecting) && isDisconnecting == old(isDisconnecting)
      ensures match ReadUrlParams(connected, errorCode)
              case NoCallback =>
                notices == old(notices) && refetchCalls == old(refetchCalls) && error == old(error)
              case LinkedByRedirect =>
                notices == old(notices) + [Notice(ConnectedNotice, "success")] && refetchCalls == old(refetchCalls) + 1 &&
                error == old(error)
              case LinkFailed(m) =>
                notices == old(notices) + [Notice(m, "error")] && refetchCalls == old(refetchCalls) && error == m
    {
      var outcome := ReadUrlParams(connected, errorCode);
      match outcome {
        case NoCallback =>
        case LinkedByRedirect =>
          notices := notices + [Notice(ConnectedNotice, "success")];
          refetchCalls := refetchCalls + 1;
        case LinkFailed(m) =>
          error := m;
          notices := notices + [Notice(m, "error")];
      }
    }

    /** `handleConnect` up to its await. */
    method HandleConnect()
      modifies this
      ensures isConnecting && error == ""
      ensures isDisconnecting == old(isDisconnecting) && notices == old(notices)
      ensures refetchCalls == old(refetchCalls) && attempts == old(attempts)
    {
      isConnecting := true;
      error := "";
    }

    /** `handleConnect` once `connectGitHub` settles: a truthy URL opens the popup (a handle is
        returned or not) and starts an attempt; anything else is reported. */
    method ConnectSettled(outcome: Result<Json, string>, popupOpened: bool)
      requires Valid()
      modifies this
      ensures Valid()
      ensures isDisconnecting == old(isDisconnecting) && refetchCalls == old(refetchCalls)
      ensures outcome.Success? && JsTruthyValue(outcome.value) ==>
                attempts == old(attempts) + [Fresh(popupOpened)] && notices == old(notices) &&
                isConnecting == old(isConnecting) && error == old(error)
      ensures !(outcome.Success? && JsTruthyValue(outcome.value)) ==>
                var m := if outcome.Failure? then MessageOr(outcome.error, ConnectFallback) else NoRedirectUrl;
                attempts == old(attempts) && !isConnecting && error == m && notices == old(notices) + [Notice(m, "error")]
    {
      if outcome.Success? && JsTruthyValue(outcome.value) {
        attempts := attempts + [Fresh(popupOpened)];
      } else {
        var m := if outcome.Failure? then MessageOr(outcome.error, ConnectFallback) else NoRedirectUrl;
        error := m;
        notices := notices + [Notice(m, "error")];
        isConnecting := false;
      }
    }

    /** A message event or poll tick reaching attempt `i`. */
    method Signal(i: nat, sig: Signal)
      requires Valid() && i < |attempts|
      modifies this
      ensures Valid()
      ensures var (next, effect) := Deliver(old(attempts[i]), pageOrigin, sig);
              attempts == old(attempts)[i := next] && isDisconnecting == old(isDisconnecting) &&
              match effect
              case NoEffect =>
                notices == old(notices) && refetchCalls == old(refetchCalls) &&
                isConnecting == old(isConnecting) && error == old(error)
              case Linked =>
                notices == old(notices) + [Notice(ConnectedNotice, "success")] &&
                refetchCalls == old(refetchCalls) + 1 && !isConnecting && error == ""
              case PopupClosed =>
                notices == old(notices) && refetchCalls == old(refetchCalls) + 1 && !isConnecting && error == old(error)
              case PopupMissing =>
                notices == old(notices) + [Notice(BlockedNotice, "error")] && refetchCalls == old(refetchCalls) &&
                !isConnecting && error == BlockedError
    {
      var (next, effect) := Deliver(attempts[i], pageOrigin, sig);
      attempts := attempts[i := next];
      match effect {
        case NoEffect =>
        case Linked =>
          notices := notices + [Notice(ConnectedNotice, "success")];
          refetchCalls := refetchCalls + 1;
          isConnecting := false;
          error := "";
        case PopupClosed =>
          refetchCalls := refetchCalls + 1;
          isConnecting := false;
        case PopupMissing =>
          error := BlockedError;
          notices := notices + [Notice(BlockedNotice, "error")];
          isConnecting := false;
      }
    }

    /** `handleDisconnect` up to its await. */
    method HandleDisconnect()
      modifies this
      ensures isDisconnecting && error == ""
      ensures isConnecting == old(isConnecting) && notices == old(notices)
      ensures refetchCalls == old(refetchCalls) && attempts == old(attempts)
    {
      isDisconnecting := true;
      error := "";
    }

    /** `handleDisconnect` once `disconnectGitHub` settles. */
    method DisconnectSettled(outcome: Result<Json, string>)
      modifies this
      ensures !isDisconnecting && isConnecting == old(isConnecting) && attempts == old(attempts)
      ensures outcome.Success? ==>
                notices == old(notices) + [Notice(DisconnectedNotice, "success")] &&
                refetchCalls == old(refetchCalls) + 1 && error == old(error)
      ensures outcome.Failure? ==>
                var m := MessageOr(outcome.error, DisconnectFallback);
                notices == old(notices) + [Notice(m, "error")] && refetchCalls == old(refetchCalls) && error == m
    {
      match outcome {
        case Success(_) =>
          notices := notices + [Notice(DisconnectedNotice, "success")];
          refetchCalls := refetchCalls + 1;
        case Failure(e) =>
          var m := MessageOr(e, DisconnectFallback);
          error := m;
          notices := notices + [Notice(m, "error")];
      }
      isDisconnecting := false;
    }
  }
}
