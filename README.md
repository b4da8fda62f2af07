# Reomir core, modelled in Dafny

Reomir is a web application in which a signed-in user chats with an agent, keeps a profile, and
can link a GitHub account. This project models the logic that decides what the system does on
each request or event, and proves properties of it.

- **Browser side.**
  - `ApiClient`: the authenticated call to the API gateway. It sends the bearer token and retries
    once after a 401, following a forced session refresh.
  - `ChatApiService`: the two chat calls made through it.
  - `UseChat` (the `useChat` hook) and `ChatContainer` (the older component): the two chat
    controllers.
  - `SettingsActions`: the GitHub settings actions.
  - `GitHubLinking` (the `useGitHubIntegration` hook): the popup linking protocol.
  - `Feedback`: the self-clearing feedback latch of `useFeedback`.
  - `UserProfile`: the profile provider.
- **Cloud Functions.**
  - `UsersFunction`: the `users` profile function.
  - `SessionMapper`: the session mapper.
  - `GitHubKms`: the GitHub integration that stores the token encrypted with KMS.
  - `GitHubPlain`: the GitHub integration that stores the token as is.
  - `GitHubAccount`: the OAuth logic the two GitHub integrations share.
- **Shared layers.**
  - `PyHttp`: the Flask request and reply, CORS, and the API gateway's user-info header.
  - `DocumentStore`: the Firestore `users` collection with its `set(merge=True)` and `update`
    semantics.
  - `Json` and `Text`: JSON values and string helpers.
- **Agent.** `UserAgent`: the user agent's callback and its two metadata tools.

External services are parameters of the operations that call them:
- the session provider and `fetch`, as functions of the call number;
- the markdown renderer and the clock;
- base64 and JSON decoding of the user-info header, as one partial function;
- KMS;
- GitHub's token and user endpoints;
- the agent service and the ID-token minting;
- whether the store raises.

State that the source changes in place is a class:
- the hooks' state;
- the session state;
- the `users` collection.

Each method of such a class is specified by a function of the state before it and of the inputs. The
lemmas about those functions state what the component promises.

A React callback runs in segments separated by `await`s, and each segment is one method. What the
closure carries across an `await` is a value of a `Pending` datatype. The state a callback closed over
when it was rendered is a `View`.

Three places where the code does not do what it evidently intends are listed under "Findings". For
each, one member models the code as written and a lemma exhibits an input that shows the
discrepancy; the request handlers and the agent tool are then built on the corrected definitions,
and their rows say "corrected per Findings". Three further behaviours of the code are modelled as
written:
- `window.open(..., "noopener")` returns no handle. A link through the popup then reaches the hook
  only through the closed-popup poll, which reports "Popup window was blocked"
  (`GitHubLinking.NullHandleEndsAtFirstTick`).
- The success page's message is accepted only when the gateway serves it from the page's own origin
  (`GitHubKms.SuccessPageConfirms`).
- ChatContainer's empty-reply check `!response.length === 0` is always false, so an empty reply falls
  through to the content-structure error (`ChatContainer.EmptyReplyFallsThrough`).

## Model

| member | source | states |
|---|---|---|
| ApiClient.BuildRequest | front/lib/apiClient.js:34-55 | the request goes to `<base>/api/<version>/<endpoint>` with the caller's method and headers; `Authorization: Bearer <idToken>` and `Content-Type: application/json` replace any caller header of those names; a body is sent exactly when the caller's body is truthy |
| ApiClient.FailureMessage | front/lib/apiClient.js:83-94 | for a JSON object with a truthy `message`, that message; for any other JSON value but `null` (an object whose `message` is missing or falsy, an array, a scalar), "Request failed with status N"; for `null`, the TypeError text of reading `message` of null; for a body that is not JSON, the status text, or "An unknown error occurred" when that is empty |
| ApiClient.Attempt | front/lib/apiClient.js:20-107 | every invocation asks for the session once (unforced) before anything else and keeps the calls already made; it sends nothing exactly when the session is unusable or the gateway URL is unset, and at most one request more once retried |
| ApiClient.Call | front/lib/apiClient.js:20-107 | at most two requests and three session reads; no session or no gateway URL rejects before any request; the first request carries the first session's token; a first request the network refuses rejects with `fetch`'s message, with no refresh and no retry; a second request goes out only after a 401 and a forced refresh that gave a token and no error, and carries the re-read session's token |
| ApiClient.Settle | front/lib/apiClient.js:57-106 | a non-ok response rejects with `FailureMessage`; 204 resolves with `null`; any other ok response resolves with its parsed JSON, and rejects with the parse error when its body is not JSON |
| ApiClient.NoRetryWithout401 | front/lib/apiClient.js:57-106 | a first response that arrives and is not 401 settles the call as `Settle` says, with one session read and one request |
| ApiClient.RetryOnce | front/lib/apiClient.js:52-66 | after a 401 and a successful forced refresh, the call settles as `Settle` of the second response, which is never refreshed again, or rejects with `fetch`'s message when the network refuses the retry |
| ApiClient.RefreshFailure | front/lib/apiClient.js:58-79 | a failed refresh rejects with the session's error, or "Failed to refresh token and authenticate.", and sends no second request |
| ChatApiService.RunRequestRoundTrip | front/lib/chatApiService.js:55-71 | the run request's body is sent, and the agent reads back from it exactly the session ID and the text of the new user turn |
| ChatApiService.RunPayload | front/lib/chatApiService.js:55-64 | the run payload has exactly the five members, the given application and session, the literal user ID "user" and streaming off |
| ChatApiService.RunOptions | front/lib/chatApiService.js:67-71 | the run request is a JSON POST whose body is the run payload |
| ChatApiService.SessionOptions | front/lib/chatApiService.js:23-26 | the session request is a POST with no body and no extra headers |
| ChatApiService.AcquireChatSession | front/lib/chatApiService.js:12-38 | resolves exactly when the reply is an object with a truthy `id`, and then with that ID; any other reply gives the session-missing error; a rejected call passes its error on |
| ChatApiService.AtLast | front/lib/chatApiService.js:79-90 | `.at(-1)` of an array is its last item (undefined when empty); values with no `at` method throw |
| ChatApiService.BotId | front/lib/chatApiService.js:92 | the bot message's ID is always truthy: the event's own `id`, or `bot-<now>` |
| ChatApiService.SendChatMessage | front/lib/chatApiService.js:49-98 | a null, falsy or empty reply is refused; a last event without truthy `content` or `content.parts`, or with empty parts, gives the content-structure error; for a well-formed reply the message is the model's, with `BotId` of the last event and the rendering of the last part's text; any success came from a non-empty list whose last event has parts |
| ChatApiService.OnlyLastEventCounts | front/lib/chatApiService.js:79-95 | events before the last one never change the result |
| SettingsActions.ConnectRequest | front/actions/settingsActions.js:11-13 | `connectGitHub` sends a bodiless GET to `<base>/api/v1/github/connect` with the bearer token and JSON headers only |
| SettingsActions.DisconnectRequest | front/actions/settingsActions.js:34-36 | `disconnectGitHub` sends a bodiless DELETE to `<base>/api/v1/github/disconnect` with the bearer token and JSON headers only |
| SettingsActions.ConnectGitHub | front/actions/settingsActions.js:10-25 | resolves exactly when the reply is an object with a truthy `redirectUrl`, and then with it; other replies give the fixed error; a rejected call passes its error on |
| SettingsActions.DisconnectGitHub | front/actions/settingsActions.js:33-44 | resolves with whatever the call resolved with (`null` for 204) and rejects exactly when the call rejects, with its message |
| UseChat.SystemError | front/hooks/useChat.js:30-111 | a system message whose text is "Error: " and the message |
| ChatApiService.UserMessage | front/hooks/useChat.js:65-69 | a user message holding exactly the typed text, as both chat views log it |
| UseChat.Send | front/hooks/useChat.js:47-116 | a whole send from a quiescent render: its start, the session call when no session is held, and the reply; the lemmas below state its properties |
| UseChat.EnsureSessionStart | front/hooks/useChat.js:12-19 | a held session is returned unchanged; a load in progress refuses; otherwise loading goes up, the error is cleared and the session is requested |
| UseChat.SendStart | front/hooks/useChat.js:47-82 | blank input does nothing; without a user one system error is logged and nothing is called; otherwise the user's message is logged, the error cleared and both flags raised before any call; a held session is reused, and a missing one is requested unless a load is in progress, in which case the send stops with both flags down |
| UseChat.BeginExchange | front/hooks/useChat.js:65-90 | the user's message is appended and the error cleared; the flags are up while a call is awaited and down when the send stops |
| UseChat.SessionSettled | front/hooks/useChat.js:22-90 | a truthy session ID is stored and the reply is requested on it (with `isLoading` dropped unless the closure saw the bot typing); a failure logs one system error with the message or the fallback and ends the send with both flags down |
| UseChat.ReplySettled | front/hooks/useChat.js:92-116 | the bot message or one system error (message or fallback) is appended; the send ends with both flags down and the session unchanged |
| UseChat.FlagsClearedAfterSend | front/hooks/useChat.js:71-116 | every send past the input checks ends with `isLoading` and `isBotTyping` false |
| UseChat.SessionReused | front/hooks/useChat.js:76-82 | once a session ID is held, a send's result does not depend on the session call |
| UseChat.SessionKeptAfterFirstSend | front/hooks/useChat.js:22-82 | a first send whose session call succeeds leaves the session ID stored |
| UseChat.LoadingDroppedBeforeReply | front/hooks/useChat.js:39-44 | after the session arrives during a send, `isLoading` is already false while the reply is awaited, though the bot is still typing |
| UseChat.Apply | front/hooks/useChat.js:30-104 | every step only appends to the message log |
| UseChat.Run | front/hooks/useChat.js:30-104 | the hook after a sequence of steps, each from some earlier render or suspended send |
| UseChat.LogOnlyGrows | front/hooks/useChat.js:30-104 | under any interleaving of sends and settled calls, each earlier log is a prefix of each later one |
| UseChat.ChatHook.constructor | front/hooks/useChat.js:6-10 | the initial state: no session, no messages, flags down, no error |
| UseChat.ChatHook.EnsureSession | front/hooks/useChat.js:12-19 | updates the hook's fields as `EnsureSessionStart` says |
| UseChat.ChatHook.HandleSendMessage | front/hooks/useChat.js:47-82 | updates the hook's fields as `SendStart` says |
| UseChat.ChatHook.Exchange | front/hooks/useChat.js:65-82 | updates the hook's fields as `BeginExchange` says |
| UseChat.ChatHook.OnSession | front/hooks/useChat.js:22-90 | updates the hook's fields as `SessionSettled` says |
| UseChat.ChatHook.OnReply | front/hooks/useChat.js:92-116 | updates the hook's fields as `ReplySettled` says |
| ChatContainer.RequestOf | front/components/ChatContainer.jsx:21-104 | a send waiting on its session has asked for one with a bodiless POST; a send awaiting its reply has posted a run request from which the agent reads back exactly that send's session and text |
| ChatContainer.SystemMessage | front/components/ChatContainer.jsx:39-136 | a system message holding the given text |
| ChatContainer.ReadReply | front/components/ChatContainer.jsx:100-123 | a rejected call passes its error on; a falsy reply gives "Invalid response structure from the bot."; an empty list, or a last event without truthy `content` or `content.parts`, gives the content-structure error; a well-formed reply gives the model's message with `BotId` of the last event and the last part's raw text |
| ChatContainer.EmptyReplyFallsThrough | front/components/ChatContainer.jsx:108-116 | an empty list of events passes the emptiness test (written `!response.length === 0`) and fails at the content check, where `sendChatMessage` reports it as empty |
| ChatContainer.EmptyPartsRaises | front/components/ChatContainer.jsx:114-118 | an event whose parts list is empty passes the content check and fails reading `text` of undefined |
| ChatContainer.SendStart | front/components/ChatContainer.jsx:51-84 | without a user, whatever the input, the error is set and "Error: User information missing." is logged; blank input does nothing; otherwise the user's message is logged, loading goes up, the error is cleared, and the run goes out on the rendered session or a session is requested |
| ChatContainer.Accept | front/components/ChatContainer.jsx:67-84 | the user's message is logged, loading raised, the error cleared; the run request waits on the rendered session if it is truthy, else a session is requested |
| ChatContainer.SessionSettled | front/components/ChatContainer.jsx:15-84 | loading is always dropped, even while the reply is then awaited; a reply with a truthy `id` stores it and sends the run on it; otherwise one system error with the message or the fallback ends the send |
| ChatContainer.ReplySettled | front/components/ChatContainer.jsx:99-141 | the send ends with loading down and the session unchanged, appending the bot message or one system error (message or fallback) |
| ChatContainer.ReportMentions | front/components/ChatContainer.jsx:135-158 | a log entry `Error: <e>` includes `e` |
| ChatContainer.ErrorBannerVisible | front/components/ChatContainer.jsx:155-161 | the error banner shows exactly when the error is set and non-empty and no logged message includes it |
| ChatContainer.FailureShownOnce | front/components/ChatContainer.jsx:125-161 | after a failed run is logged the error banner is hidden |
| ChatContainer.MissingUserShownTwice | front/components/ChatContainer.jsx:53-161 | a send without a user both logs its message and shows the banner, since the logged text does not include the error |
| ChatContainer.NotLoadingWhileFirstReplyAwaited | front/components/ChatContainer.jsx:46-84 | on a session's first send the input is re-enabled while the reply is still awaited |
| ChatContainer.Apply | front/components/ChatContainer.jsx:37-130 | every step only appends to the message log |
| ChatContainer.Run | front/components/ChatContainer.jsx:37-130 | the component after a sequence of sends and replies in any interleaving |
| ChatContainer.LogOnlyGrows | front/components/ChatContainer.jsx:37-130 | under any interleaving of sends and replies, each earlier log is a prefix of each later one |
| ChatContainer.ChatContainerState.constructor | front/components/ChatContainer.jsx:10-13 | no session, no messages, not loading, no error |
| ChatContainer.ChatContainerState.HandleSendMessage | front/components/ChatContainer.jsx:51-84 | updates the component's fields as `SendStart` says |
| ChatContainer.ChatContainerState.ReportMissingUser | front/components/ChatContainer.jsx:53-62 | sets the error and appends the fixed system message, changing nothing else |
| ChatContainer.ChatContainerState.AcceptSend | front/components/ChatContainer.jsx:67-84 | updates the component's fields as `Accept` says |
| ChatContainer.ChatContainerState.OnSession | front/components/ChatContainer.jsx:15-84 | updates the component's fields as `SessionSettled` says |
| ChatContainer.ChatContainerState.OnReply | front/components/ChatContainer.jsx:99-141 | updates the component's fields as `ReplySettled` says |
| GitHubLinking.ErrorMessageFor | front/hooks/useGitHubIntegration.js:22-47 | each of the five known codes has its own message; any other code, `internal_error` included, is shown with its underscores turned to spaces; every message starts "GitHub connection failed: " |
| GitHubLinking.ReadUrlParams | front/hooks/useGitHubIntegration.js:12-52 | `github_connected=true` wins over an error; a non-empty `github_error` gives its message; nothing is reported exactly when neither is present |
| GitHubLinking.Deliver | front/hooks/useGitHubIntegration.js:73-115 | a torn-down attempt ignores every signal; a message completes the attempt exactly when it comes from the page's origin and is the success message; a tick completes it exactly when the popup is closed or there is no popup; every completion tears down both listener and timer; only the two closing paths refetch; the popup is closed by the hook only if it was still open |
| GitHubLinking.Run | front/hooks/useGitHubIntegration.js:73-115 | one effect per signal delivered |
| GitHubLinking.CompletesAtMostOnce | front/hooks/useGitHubIntegration.js:84-115 | whatever signals arrive in whatever order, an attempt completes at most once and refetches at most once, and a torn-down attempt completed exactly once |
| GitHubLinking.StoppedIsInert | front/hooks/useGitHubIntegration.js:86-107 | after teardown no signal changes the attempt or completes it |
| GitHubLinking.BothSignalsRefetchOnce | front/hooks/useGitHubIntegration.js:73-103 | the success message and the closed-popup tick, in either order, give one completion and one refetch |
| GitHubLinking.NullHandleEndsAtFirstTick | front/hooks/useGitHubIntegration.js:62-114 | with no popup handle (what `window.open` returns under `noopener`) the first tick reports the popup blocked, once, and nothing refetches |
| GitHubLinking.GitHubIntegrationHook.constructor | front/hooks/useGitHubIntegration.js:6-8 | both flags down, no error, no callbacks called, no attempts |
| GitHubLinking.GitHubIntegrationHook.ReadCallbackParams | front/hooks/useGitHubIntegration.js:11-53 | a redirect success shows the success notice and refetches once; an error sets and shows its message; otherwise nothing changes |
| GitHubLinking.GitHubIntegrationHook.HandleConnect | front/hooks/useGitHubIntegration.js:55-57 | connecting goes up and the error is cleared; nothing else changes |
| GitHubLinking.GitHubIntegrationHook.ConnectSettled | front/hooks/useGitHubIntegration.js:60-125 | a truthy URL starts a fresh attempt with or without a popup handle; a rejection or a falsy URL sets and shows the message (or its fallback) and drops the flag |
| GitHubLinking.GitHubIntegrationHook.Signal | front/hooks/useGitHubIntegration.js:73-115 | the attempt moves as `Deliver` says; a link shows success, refetches, drops the flag and clears the error; a closed popup refetches and drops the flag; a missing popup sets and shows the blocked error |
| GitHubLinking.GitHubIntegrationHook.HandleDisconnect | front/hooks/useGitHubIntegration.js:128-130 | disconnecting goes up and the error is cleared |
| GitHubLinking.GitHubIntegrationHook.DisconnectSettled | front/hooks/useGitHubIntegration.js:131-141 | success shows its notice and refetches once; failure sets and shows the message or its fallback; the flag always drops |
| Feedback.Initial | front/hooks/useFeedback.js:15-16 | empty message of kind "info", no timer |
| Feedback.Show | front/hooks/useFeedback.js:22-38 | shows exactly the given message and kind ("info" when omitted), replaces the pending timer by a new one due `duration` later, whose ID differs from the one it replaced |
| Feedback.Fire | front/hooks/useFeedback.js:32-35 | only the timer in the ref clears the feedback (back to empty "info") and empties the ref; any other timer changes nothing |
| Feedback.Unmount | front/hooks/useFeedback.js:41-47 | the pending timer is cancelled and the feedback left as it was |
| Feedback.Apply | front/hooks/useFeedback.js:22-38 | each event keeps the ref's invariant: a live timer has an ID already handed out |
| Feedback.Run | front/hooks/useFeedback.js:22-38 | any sequence of events keeps the ref's invariant |
| Feedback.LastShowWins | front/hooks/useFeedback.js:22-35 | after the last `showFeedback`, its message stays until its own timer fires, and then the feedback is empty; the timers it cancelled change nothing |
| Feedback.FireEvents | front/hooks/useFeedback.js:32 | one firing per timer ID, in order |
| Feedback.FiresFrom | front/hooks/useFeedback.js:25-35 | any firings leave the state as it is unless the live timer is among them, which clears the feedback once |
| Feedback.FeedbackHook.constructor | front/hooks/useFeedback.js:14-16 | the initial state, with the duration given or 3000 ms |
| Feedback.FeedbackHook.ShowFeedback | front/hooks/useFeedback.js:22-38 | updates the hook's fields as `Show` says |
| Feedback.FeedbackHook.TimerFires | front/hooks/useFeedback.js:32-35 | updates the hook's fields as `Fire` says |
| Feedback.FeedbackHook.Unmounted | front/hooks/useFeedback.js:41-47 | updates the hook's fields as `Unmount` says |
| UserProfile.LoadingScreenIffGlobal | front/components/UserProfileProvider.jsx:151-167 | the loading screen shows exactly when loading is global; the extra test against `unauthenticated` never changes the outcome |
| UserProfile.IsLoadingGlobally | front/components/UserProfileProvider.jsx:151-153 | loading is global while the session loads, or while an authenticated profile loads |
| UserProfile.ShowsLoadingScreen | front/components/UserProfileProvider.jsx:165-167 | the loading screen replaces the children while loading is global and the session is not unauthenticated |
| UserProfile.FetchStart | front/components/UserProfileProvider.jsx:34-57 | the profile is requested exactly when authenticated with an ID token, after raising the flag and clearing the error; unauthenticated clears profile, error and flag; a loading session raises the flag; authenticated without a token changes nothing |
| UserProfile.FetchSettled | front/components/UserProfileProvider.jsx:42-49 | the flag always drops; success stores the data; failure stores the message or "Failed to load profile" and clears the profile |
| UserProfile.FetchEndsLoading | front/components/UserProfileProvider.jsx:34-167 | an authenticated fetch shows the loading screen until it settles, and not after, whatever its outcome |
| UserProfile.Spread | front/components/UserProfileProvider.jsx:91 | `{...v}` of an object is its members; of `null`, booleans and numbers, nothing |
| UserProfile.Indexed | front/components/UserProfileProvider.jsx:91 | an array or string spreads to the members "0", "1", … "n-1", each holding its element |
| UserProfile.IndexedHasOnlyIndices | front/components/UserProfileProvider.jsx:91 | a spread array or string has no member besides its decimal indices |
| UserProfile.Merge | front/components/UserProfileProvider.jsx:91 | the merged profile has the members of both; the reply's members win and the previous profile's others are kept |
| UserProfile.MergeIdempotent | front/components/UserProfileProvider.jsx:91 | merging the same reply twice changes nothing more, and a `null` reply (204) keeps the previous profile |
| UserProfile.ProfileRequest | front/components/UserProfileProvider.jsx:39-41 | every profile call goes to `<base>/api/v1/users/self` with the call's method, and with its body exactly when that is truthy |
| UserProfile.ProfileRequests | front/components/UserProfileProvider.jsx:39-128 | the fetch is a bodiless GET, the deletion a bodiless DELETE, and an update carries its truthy payload |
| UserProfile.UpdateOptions | front/components/UserProfileProvider.jsx:86-89 | PUT for a partial update, POST otherwise, with the payload as body |
| UserProfile.UpdateBegin | front/components/UserProfileProvider.jsx:63-84 | not signed in: an authentication toast and a rejection; an update seen in progress by the callback's render: its own toast and rejection; otherwise the update flag goes up, the error clears, and the request is made |
| UserProfile.UpdateSettled | front/components/UserProfileProvider.jsx:91-111 | the flag always drops and the promise settles as the call did; success merges the reply into the profile and toasts "Profile Updated"; failure sets the message or its fallback and toasts "Update Failed" |
| UserProfile.GuardSeesOnlyItsRender | front/components/UserProfileProvider.jsx:74-113 | two updates started from the same render both go through; one started from the render after the first is turned away |
| UserProfile.DeleteBegin | front/components/UserProfileProvider.jsx:116-126 | not signed in: an authentication toast and a rejection; otherwise the loading flag goes up and the error clears |
| UserProfile.DeleteSettled | front/components/UserProfileProvider.jsx:127-148 | sign-out is called exactly after a successful DELETE; the promise resolves exactly when both succeed, with the success toast and the loading flag left up; otherwise it rejects with the first failure's message, drops the flag and sets the error, with "Deletion Failed" toasted right after whatever was shown: after nothing new when the DELETE failed, after "Account Deleted" when `signOut` failed |
| UserProfile.Failed | front/components/UserProfileProvider.jsx:135-146 | appends the "Deletion Failed" toast with the message or its fallback |
| UserProfile.DeleteKeepsLoadingScreen | front/components/UserProfileProvider.jsx:125-167 | a successful deletion keeps the loading screen up; a failed one takes it down |
| UserProfile.ProfileProvider.constructor | front/components/UserProfileProvider.jsx:28-31 | no profile, loading, not updating, no error, no toasts, no sign-out |
| UserProfile.ProfileProvider.FetchUserProfile | front/components/UserProfileProvider.jsx:34-57 | updates the provider's fields as `FetchStart` says |
| UserProfile.ProfileProvider.OnProfileFetched | front/components/UserProfileProvider.jsx:42-49 | updates the provider's fields as `FetchSettled` says |
| UserProfile.ProfileProvider.UpdateProfile | front/components/UserProfileProvider.jsx:63-84 | updates the provider's fields as `UpdateBegin` says |
| UserProfile.ProfileProvider.OnProfileUpdated | front/components/UserProfileProvider.jsx:91-111 | updates the provider's fields as `UpdateSettled` says |
| UserProfile.ProfileProvider.DeleteProfile | front/components/UserProfileProvider.jsx:116-126 | updates the provider's fields as `DeleteBegin` says |
| UserProfile.ProfileProvider.OnProfileDeleted | front/components/UserProfileProvider.jsx:127-148 | updates the provider's fields as `DeleteSettled` says |
| PyHttp.Lookup | functions/users/main.py:70 | `headers.get(name)` is the header's value when present and `None` otherwise |
| PyHttp.WithCors | functions/users/main.py:108-116 | the reply keeps its status and body, gains the four CORS headers (origin as configured, max age 3600) and keeps its other headers |
| PyHttp.Pad | functions/users/main.py:75 | the padded header starts with the header, adds at most three '=' and has a length divisible by four |
| PyHttp.PadFixedPoints | functions/session-mapper/main.py:46 | padding adds nothing exactly when the length is already a multiple of four, and padding twice is padding once |
| PyHttp.DecodeUserInfo | functions/users/main.py:60-85 | no or empty header is its own error; a header that does not decode, or decodes to a non-object, is "invalid format"; an object without a truthy `sub` has no subject; an object with one gives exactly its claims |
| PyHttp.DocId | functions/users/main.py:130-132 | a document can be addressed exactly when the user ID is a string |
| PyHttp.JsonOf | functions/github-integration/main.py:216-226 | a call gives a body exactly when it got a response whose status passes `raise_for_status()` and whose body is JSON |
| DocumentStore.DeepMerge | functions/users/main.py:183 | keys of both survive; written non-maps replace; untouched keys are kept; written non-empty maps are merged key by key |
| DocumentStore.DeepMergeIdempotent | functions/users/main.py:183 | merging the same data twice is merging it once |
| DocumentStore.SetMerge | functions/users/main.py:183 | `set(merge=True)`: deleted fields go, stamped fields get the commit time, plain non-map values are written as given, unnamed fields are kept, and no other field appears |
| DocumentStore.Updated | functions/users/main.py:211 | `update`: each named field is deleted or replaced whole (maps included), every other field is kept, and no other field appears |
| DocumentStore.MergeIntoEmpty | functions/users/main.py:183 | merging into nothing gives the data itself |
| DocumentStore.SetMergeIntoNothing | functions/users/main.py:183 | setting plain values on a missing document creates exactly those values |
| DocumentStore.Puts | functions/users/main.py:183 | one plain write per field, of that field's value |
| DocumentStore.Collection.constructor | functions/users/main.py:21 | the collection holds the given documents |
| DocumentStore.Collection.Get | functions/users/main.py:133-136 | the document's fields, or nothing when it does not exist |
| DocumentStore.Collection.Set | functions/users/main.py:183 | the document becomes `SetMerge` of what was there and nothing else changes |
| DocumentStore.Collection.SetFields | agent/coordinator/sub_agents/user_agent.py:100-103 | (corrected per Findings) the write the metadata tool evidently intends, in place of its `set(merge=True)`: the document becomes `Updated` of what was there (or of nothing) and nothing else changes |
| DocumentStore.Collection.Update | functions/users/main.py:211-218 | a missing document is reported and nothing is written; otherwise it becomes `Updated` of what was there |
| DocumentStore.Collection.Delete | functions/users/main.py:240 | the document is gone and nothing else changes |
| UsersFunction.AuthError | functions/users/main.py:71-128 | 401 for a missing header, 400 for the other authentication errors |
| UsersFunction.RequestData | functions/users/main.py:88-105 | the body is used exactly when it parses to something other than `null`; an unreadable body and a `null` body each have their 400 reply |
| UsersFunction.Decrypt | functions/users/main.py:38-57 | without the KMS configuration nothing is decrypted; otherwise the result is KMS's |
| UsersFunction.WithDecryptedToken | functions/users/main.py:136-147 | a document without a non-empty string token is returned as stored; a token that decrypts is replaced by its plaintext; one that does not becomes `null` with `github_access_token_error: decryption_failed` |
| UsersFunction.NoDecryptWithoutToken | functions/users/main.py:137-138 | decryption is attempted only on a stored non-empty string token |
| UsersFunction.UnconfiguredKmsHidesToken | functions/users/main.py:40-147 | without the KMS configuration every stored token reads back as `null` with the error marker |
| UsersFunction.GetReply | functions/users/main.py:130-153 | 500 when the store fails or the ID is not a string; 204 for no document; otherwise 200 with the document, its token decrypted |
| UsersFunction.GetUserData | functions/users/main.py:120-153 | answers as `GetReply` says and writes nothing |
| UsersFunction.PostDocument | functions/users/main.py:176-182 | the stored document has no `None` value; the request's non-null fields win, `uid` included; its null fields are dropped; `uid` comes from the claims otherwise; no other field appears besides `uid`, `email` and `displayName` |
| UsersFunction.ConsentIsStored | functions/users/main.py:171-183 | a consenting POST stores `cookieConsent: "true"` |
| UsersFunction.BooleanConsentRefused | functions/users/main.py:171 | only the string "true" consents; the boolean `true` does not |
| UsersFunction.PostOutcome | functions/users/main.py:155-188 | body errors, missing consent and store failures each write nothing and give their reply; a consenting body with a string ID and a working store always answers 200, echoing the stored document after merging it into the user's document |
| UsersFunction.CreateUpdateUserData | functions/users/main.py:155-188 | answers and writes as `PostOutcome` says |
| UsersFunction.PostThenGet | functions/users/main.py:148-185 | for a new user, GET after a successful POST returns what the POST echoed |
| UsersFunction.PutOutcome | functions/users/main.py:190-223 | body errors and an empty or non-object body write nothing; for a non-empty object, a failing store or non-string ID gives 500, a missing document 404 and an existing one 200, each exactly; a 200 replaces the named fields and returns the document as stored |
| UsersFunction.UpdateUserDataPut | functions/users/main.py:190-223 | answers and writes as `PutOutcome` says |
| UsersFunction.PutTouchesOnlyNamedFields | functions/users/main.py:211-217 | a PUT sets each named field to the given value and keeps every other field |
| UsersFunction.DeleteOutcome | functions/users/main.py:225-248 | a string ID's document is removed; 200 with the message if it existed, 204 if not; 500 and nothing removed when the store fails |
| UsersFunction.DeleteUserData | functions/users/main.py:225-248 | answers and writes as `DeleteOutcome` says |
| UsersFunction.DeleteTwice | functions/users/main.py:239-245 | deleting twice answers 200 then 204 and leaves what deleting once left |
| UsersFunction.Handle | functions/users/main.py:108-258 | every reply has the CORS headers; a preflight is 204 and writes nothing; methods other than GET, HEAD, POST, PUT and DELETE are 405; an authentication failure gives its reply and writes nothing; GET and HEAD answer as `GetReply` and never write; POST, PUT and DELETE answer and write as `PostOutcome`, `PutOutcome` and `DeleteOutcome` |
| SessionMapper.AuthError | functions/session-mapper/main.py:36-81 | 401 for a missing header, 400 otherwise, as JSON text served with Flask's default HTML type |
| SessionMapper.AgentReply | functions/session-mapper/main.py:132-173 | a status that passes `raise_for_status()` is passed through with the agent's body and Content-Type (Flask's default without one); an error status is passed on with the agent's status and text in JSON; no response gives 502 |
| SessionMapper.CommunicationError | functions/session-mapper/main.py:166-173 | the error body holds exactly the message, the agent's status and its text |
| SessionMapper.TargetUrl | functions/session-mapper/main.py:95-97 | the agent URL is the configured base followed by `/apps/<app>/users/`, and ends in `/sessions` |
| SessionMapper.MapSession | functions/session-mapper/main.py:61-202 | every reply has the CORS headers; preflight 204, methods other than GET, HEAD and POST 405, no agent URL 500, authentication errors, no `X-App` 400, each without calling the agent; the agent is called only for a configured, authenticated request with `X-App`, at `<agent>/apps/<app>/users/<sub>/sessions`, with a bearer ID token minted for that same URL, the `X-App` header, the raw body and a 10 s timeout, and every such request whose token is minted does call it |
| SessionMapper.Forward | functions/session-mapper/main.py:78-182 | the checks after the configuration in order; missing credentials and any other token error each give their own 500 body, without a call |
| GitHubAccount.CallerId | functions/github-integration/main.py:69-92 | a caller is known exactly when the header decodes to claims; it is then their truthy `sub` |
| GitHubAccount.AuthorizeQueryRoundTrip | functions/github-integration/main.py:135-143 | with no '&' in the client ID, gateway URL or user ID, the authorization URL's query splits back into exactly `client_id`, `redirect_uri`, `scope` and `state` |
| GitHubAccount.Connect | functions/github-integration/main.py:119-143 | no caller is 401; then a missing client ID and a missing gateway URL are each their own 500; otherwise, and only then, the user is sent to GitHub with their ID as `state` |
| GitHubAccount.Code | functions/github-integration/main.py:162-280 | every error code sent to the front end is a non-empty word without spaces |
| GitHubAccount.TokenForm | functions/github-integration/main.py:177-182 | the token request sends exactly the client ID, secret, code and redirect URI, the code and client ID as given |
| GitHubAccount.RedirectUriAgrees | functions/github-integration/main.py:132-181 | the token request names the same redirect URI the authorization URL carried |
| GitHubAccount.Seal | functions/github-integration/main.py:46-204 | the plain function stores the token as is; the KMS one stores the non-empty ciphertext, and fails exactly when the token is not a string or encryption gives nothing |
| GitHubAccount.ExchangeCode | functions/github-integration/main.py:185-280 | a failed or non-JSON token call is `api_error`, a non-object body `internal_error`; a falsy access token is `token_exchange_failed`; a sealing failure is `encryption_failed` whatever the user call gives; then a failed user call is `api_error`, a non-object user `internal_error`, a falsy login or ID `user_fetch_failed`; otherwise the result is exactly the sealed token with GitHub's login and ID, and only then; the plain function never fails encryption |
| GitHubAccount.LinkWrites | functions/github-integration/main.py:227-233 | the callback writes exactly the token, login, ID, connected flag and timestamp |
| GitHubAccount.CallbackOutcome | functions/github-integration/main.py:157-280 | missing code or state, then missing configuration, fail first; a refused exchange ends with its own error code and a store failure after a granted one with `internal_error`, each leaving the store unchanged; a link is for the user named by `state` and merges the link's fields into that user's document |
| GitHubAccount.Callback | functions/github-integration/main.py:152-280 | the callback's result and the new collection are `CallbackOutcome`'s |
| GitHubAccount.StatusAsWritten | functions/github-integration/main.py:294-316 | a failing store, a non-string ID, or an existing document without `github_connected` answers 500 |
| GitHubAccount.Status | functions/github-integration/main.py:294-316 | a failing store or non-string ID is 500; otherwise 200 with `connected` true exactly when the document records a live link, plus the login and ID when it does |
| GitHubAccount.StatusAgreesWhenFieldsPresent | functions/github-integration/main.py:294-313 | on every document holding the fields it reads, the status as written answers as intended |
| GitHubAccount.StatusAsWrittenFailsForUnlinkedUser | functions/github-integration/main.py:297 | a user document without GitHub fields makes the status as written answer 500 where "not connected" is intended |
| GitHubAccount.UnlinkWrites | functions/github-integration/main.py:334-340 | disconnecting touches exactly the token, login, ID, connected flag and timestamp |
| GitHubAccount.DisconnectAsWritten | functions/github-integration/main.py:329-355 | it changes the store only for a linked account, and an existing document without `github_connected` answers 500 with the store unchanged |
| GitHubAccount.Disconnect | functions/github-integration/main.py:329-355 | a failing store or non-string ID is 500 with nothing changed; a linked account has its GitHub fields deleted and is marked disconnected; anything else is told there is nothing to disconnect and nothing changes |
| GitHubAccount.GetStatus | functions/github-integration/main.py:283-316 | (corrected per Findings) answers as `Status` says and writes nothing |
| GitHubAccount.DisconnectAccount | functions/github-integration/main.py:319-355 | (corrected per Findings) the reply and the new collection are `Disconnect`'s |
| GitHubAccount.GrantSealsToken | functions/github-integration/main.py:188-203 | a granted exchange carries exactly the sealed access token of the token call |
| GitHubAccount.LinkStoresToken | functions/github-integration/main.py:226-237 | a successful callback stores the sealed access token under the `state` user's token field |
| GitHubAccount.LinkWritesToken | functions/github-integration/main.py:226-237 | the link's `set(merge=True)` leaves the granted token itself in the token field |
| GitHubAccount.LinkThenStatus | functions/github-integration/main.py:226-305 | after a successful callback the user's account is linked, and the status reports it connected with GitHub's login and the ID as text |
| GitHubAccount.DisconnectThenStatus | functions/github-integration/main.py:333-347 | after disconnecting a linked account its token, login and ID are gone and the status reports it not connected |
| GitHubAccount.DisconnectTwice | functions/github-integration/main.py:333-349 | a second disconnect finds nothing to do and changes nothing |
| GitHubKms.TargetOrigin | functions/github-integration/main.py:244 | the success page's target origin neither starts nor ends with '/'; a `FRONTEND_URL` that neither starts nor ends with '/' is kept as is |
| GitHubKms.TargetOriginOnlyStripsSlashes | functions/github-integration/main.py:244 | the target origin is `FRONTEND_URL` with a run of slashes removed at each end and nothing else: a contiguous piece of it with only '/' before and after |
| GitHubKms.ConnectReply | functions/github-integration/main.py:119-149 | a refusal is its status with `{"error": message}`; a link answers 200 with `redirectUrl` |
| GitHubKms.CallbackReply | functions/github-integration/main.py:162-280 | a failure redirects to the settings page with its error code; a link serves the popup page addressed to the target origin with the success message |
| GitHubKms.Handle | functions/github-integration/main.py:96-366 | (corrected per Findings) every reply, 404 and 405 included, has the CORS headers; unknown paths, methods a route does not accept and preflights change nothing; HEAD is answered like GET on the GET routes; each route answers and changes the store as its function says, after a 401 for an unknown caller on status and disconnect; status and disconnect use the corrected `Status` and `Disconnect` |
| GitHubKms.StoredTokenIsCiphertext | functions/github-integration/main.py:199-228 | after a link the stored token is the ciphertext KMS gave for the access token |
| GitHubKms.Delivered | functions/github-integration/main.py:255-263 | the page's message reaches the opener exactly when the opener is at the target origin, and then carries the popup's own origin |
| GitHubKms.SuccessPageConfirms | functions/github-integration/main.py:244-263 | the settings page's hook takes the success page's message as a link exactly when the page is at the target origin and the popup was served from that same origin |
| GitHubKms.ErrorCodesAreShown | functions/github-integration/main.py:162-280 | every error code the callback sends becomes a failure message on the settings page; `encryption_failed` and `internal_error` are shown with spaces |
| GitHubPlain.AddCorsHeaders | functions/github_integration/main.py:59-79 | the reply gets the CORS headers, the view's body, and its status (204 for a preflight) |
| GitHubPlain.CallAddCors | functions/github_integration/main.py:59-90 | a call with a second argument raises; a one-argument call gives `AddCorsHeaders` |
| GitHubPlain.ConnectRouteAsWritten | functions/github_integration/main.py:83-113 | as written, every connect refusal escapes as Flask's 500 page; the redirect is answered as `ConnectRoute` answers it |
| GitHubPlain.StatusRouteAsWritten | functions/github_integration/main.py:196-223 | as written, an unknown caller gets Flask's 500 page instead of 401 |
| GitHubPlain.DisconnectRouteAsWritten | functions/github_integration/main.py:225-258 | as written, an unknown caller gets Flask's 500 page and nothing is written; a known caller gets the 500 page too, after the store is written as `DisconnectAsWritten` writes it |
| GitHubPlain.StatusAsWrittenAlwaysFails | functions/github_integration/main.py:196-222 | as written, the status route always answers Flask's 500 page without CORS headers |
| GitHubPlain.ConnectRefusalAsWrittenFails | functions/github_integration/main.py:88-99 | as written, a connect refusal is Flask's 500 page, while the intended reply is a 401 with CORS headers |
| GitHubPlain.DisconnectAsWrittenFailsAfterUnlinking | functions/github_integration/main.py:235-256 | as written, disconnecting a linked account unlinks it and then answers 500 |
| GitHubPlain.ConnectRoute | functions/github_integration/main.py:83-113 | a refusal keeps its own status and message; a permitted caller is redirected (302) to GitHub; both have CORS headers |
| GitHubPlain.CallbackLocation | functions/github_integration/main.py:125-193 | failures go to the settings page with their code; a link goes there with `github_connected=true` |
| GitHubPlain.Handle | functions/github_integration/main.py:83-288 | (corrected per Findings) Flask's 404 and 405 have no CORS headers and change nothing; HEAD is answered like GET on the GET routes; every view's answer has the CORS headers; each route answers and changes the store as its function says, with every answer passed to `_add_cors_headers` as one value |
| GitHubPlain.StoredTokenIsPlain | functions/github_integration/main.py:174-181 | after a link the stored token is the access token GitHub returned |
| UserAgent.Session.constructor | agent/coordinator/sub_agents/user_agent.py:11-15 | the session holds the given state |
| UserAgent.Session.CheckIfAgentShouldRun | agent/coordinator/sub_agents/user_agent.py:11-15 | the state records the invocation's user under "user:id"; nothing else changes |
| UserAgent.StateUser | agent/coordinator/sub_agents/user_agent.py:29-89 | the tools act for a user exactly when "user:id" holds a non-empty value, and it is that value |
| UserAgent.GetUserProfileMetadata | agent/coordinator/sub_agents/user_agent.py:18-68 | no user is its own error; a raising store gives the error with its message; "success" exactly when the document exists with non-null metadata, returning it; the status is one of the three promised; "not_found" carries no data and a message |
| UserAgent.ModifyOutcomeAsWritten | agent/coordinator/sub_agents/user_agent.py:100-110 | on success the user's document is the merge of the new metadata into it, not the new metadata |
| UserAgent.MergeKeepsDroppedKeys | agent/coordinator/sub_agents/user_agent.py:72-110 | after a reported success a stored metadata key the new metadata left out is still there |
| UserAgent.ModifyOutcome | agent/coordinator/sub_agents/user_agent.py:71-118 | no user and a raising store change nothing and give their errors; otherwise the user's metadata becomes exactly the new value (document created if needed), the document's other fields and other documents are kept |
| UserAgent.ModifyUserProfileMetadata | agent/coordinator/sub_agents/user_agent.py:71-118 | (corrected per Findings) the result and the new collection are `ModifyOutcome`'s |
| UserAgent.ModifyThenGet | agent/coordinator/sub_agents/user_agent.py:18-110 | after a write the get tool returns the written metadata, or "not_found" when it was `null` |
| Json.PyGet | functions/github-integration/main.py:190-215 | `dict.get(key)` is the member's value when present and `None` otherwise |
| Json.WithoutNulls | functions/users/main.py:182 | exactly the members whose value is not `None` survive, with their values |
| Json.JsMember | front/lib/apiClient.js:93 | reading a property throws exactly on null and undefined; on an object it is the member or undefined |
| Json.JsOptMember | front/hooks/useGitHubIntegration.js:79-80 | `v?.k` is undefined on null and undefined, and the member on an object that has it |
| Json.MessageOr | front/hooks/useChat.js:28-102 | `err.message || fallback` is the message when non-empty, else the fallback |
| Text.ReplaceChar | front/hooks/useGitHubIntegration.js:45 | every `_` becomes a space, every other character is kept, and no `_` is left |
| Text.Trim | front/hooks/useChat.js:49 | the trimmed text is empty exactly when every character is JavaScript white space |
| Text.Strip | functions/github-integration/main.py:244 | the result is the input with a run of the character removed at each end and nothing else: it is a contiguous piece of the input with only that character before and after it, and neither starts nor ends with it; an input that neither starts nor ends with it is unchanged |

## Left out

- Logging, `print` and console output: they change nothing the model states.
- Concurrency: each request to a Cloud Function and each segment of a React callback is one atomic
  step. React's render scheduling, and the interleaving of independent requests on the store, are
  not modelled.
- HTTP header names are compared exactly. Flask and `fetch` compare them without regard to case.
- Field paths: a '.' in a field name written with `update` is not read as a nested path.
- A stored map that is merged with an empty map is replaced by the empty map. Firestore's behaviour
  for that case is not modelled further.
- `json.dumps` escaping: `SessionMapper.AuthError` builds its JSON text by concatenation. This is
  exact because its three messages contain no character that needs escaping.
- `PyStr` (Python's `str()`) is exact for strings, booleans, `None` and integers. For lists and
  dicts it gives a placeholder.
- `JsonOf` counts a body that is not JSON as a `requests` exception, as the installed `requests`
  raises `JSONDecodeError`, a `RequestException`.
- JSON numbers are integers, and an object's key order is not kept.
- GitHubAccount.AuthorizeQueryRoundTrip: holds only when no value contains '&'. The source does not
  percent-encode the parameters, so a value that does contain '&' is cut in two.
- GitHubPlain.AddCorsHeaders: the one-value case, `Response(value)`, is not modelled. No view passes
  a bare body.
- UserAgent.StateUser: "user:id" values are strings, as the callback stores them. A non-string
  value put into the state by other code is not modelled.
- `storeDown` stands for a store that raises on the request's first access. A failure between two
  accesses of the same request is not modelled.
- `FRONTEND_URL` is a parameter. Its default `"/"` is not given a special case.
- KMS is one oracle per direction. The key path, base64 coding and UTF-8 coding are inside it.
- The browser's popup, `postMessage` and timers are represented by the signals they deliver. The
  browser's own rules beyond the target-origin check are not modelled.
- GitHubKms.Delivered: compares the opener's origin with the target origin as whole strings. A
  browser compares origins only, so a `FRONTEND_URL` with a path still delivers, and an empty
  target origin (the default `"/"` after stripping) makes `postMessage` throw; neither is modelled.
- The text of errors thrown by the markdown renderer is a parameter.
- `signOut` and navigation are recorded as calls. What they do in the browser is not modelled.
- The cleanup of the address bar with `history.replaceState` after reading the GitHub callback's
  parameters is not modelled. It changes no state of the hook.
- The rendering of toasts, the feedback alert and the loading screen is not modelled.
- The default value of the `useUserProfile` context is not modelled.
- The agents' LLM instructions and the `Agent` objects are not modelled. They configure a language
  model and contain no logic.
- A HEAD request runs the GET view and gets its status and headers, as Werkzeug arranges; the
  model gives it the GET reply whole, since the removal of the body on the way out is Werkzeug's.
- The entry points `handler(req)` hand the request to Flask. Flask's dispatch is modelled directly
  by `GitHubKms.Handle` and `GitHubPlain.Handle`.

## Findings

| source | as written | input that shows it | evidently intended | confidence | as-written member | corrected member |
|---|---|---|---|---|---|---|
| functions/github_integration/main.py:90,95,99,203,212-222,232,249-256 | the connect refusals, and every status and disconnect answer, call the one-parameter `_add_cors_headers` with a second argument; the `TypeError` escapes and Flask answers 500 without CORS headers | a status request from any caller; a connect request without the user-info header; a disconnect of a linked account, which unlinks it and then answers 500 | each answer is passed as one `(body, status)` value and keeps its own status, with CORS headers | not executed | GitHubPlain.StatusAsWrittenAlwaysFails | GitHubPlain.Handle, GitHubPlain.ConnectRoute |
| functions/github-integration/main.py:297,333 | `user_doc.get("github_connected")` on a `DocumentSnapshot` raises `KeyError` for a document without the field, so status and disconnect answer 500 for a user whose profile exists but never linked GitHub | document `{"cookieConsent": true}` for the caller | a missing field reads as not connected: status answers `{"connected": false}` and disconnect finds nothing to do | not executed | GitHubAccount.StatusAsWrittenFailsForUnlinkedUser | GitHubAccount.Status, GitHubAccount.Disconnect, GitHubAccount.GetStatus, GitHubAccount.DisconnectAccount, GitHubKms.Handle, GitHubPlain.Handle |
| agent/coordinator/sub_agents/user_agent.py:72-73,100-103,155 | `set({"metadata": new}, merge=True)` merges a non-empty metadata map into the stored one key by key, so keys the new metadata leaves out survive, although the tool promises to overwrite the field | stored metadata `{"city": "Paris"}`, new metadata `{"language": "fr"}` | the metadata field becomes exactly the new value (`merge=["metadata"]`) | not executed | UserAgent.MergeKeepsDroppedKeys | UserAgent.ModifyOutcome, UserAgent.ModifyUserProfileMetadata, DocumentStore.Collection.SetFields |
