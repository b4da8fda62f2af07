/** The `UserProfileProvider` component (front/components/UserProfileProvider.jsx): it loads the
    signed-in user's profile, updates it, deletes the account, and decides whether the loading
    screen is shown.

    Each callback runs in two segments around its `callAuthenticatedApi` call. The first segment
    is a transition on `State` that sees the render it was created in (`View`); the second takes
    the outcome of the call (`Success` with the resolved value, `Failure` with the thrown message).
    Calls to `toast` and `signOut` are recorded in the state. */
module UserProfile {
  import opened Wrappers
  import opened Json
  import Text
  import ApiClient

  /** `useSession().status`. */
  datatype Status = Authenticated | Unauthenticated | Loading

  /** What a callback captured from its render: the session status, whether the session carries a
      truthy `idToken`, and `isUpdatingInternal`. */
  datatype View = View(status: Status, hasIdToken: bool, isUpdating: bool)

  /** A call `toast({title, description, variant})`. */
  datatype Toast = Toast(title: string, description: string, variant: string)

  datatype State = State(
    profile: Json,
    isLoadingProfile: bool,
    isUpdatingInternal: bool,
    profileError: Option<string>,
    toasts: seq<Toast>,
    signOutCalls: nat)

  const ProfileEndpoint := "users/self"
  const LoadFallback := "Failed to load profile"
  const UpdateFallback := "Failed to update profile. Please try again."
  const DeleteFallback := "Failed to delete profile. Please try again."
  const NotAuthenticated := "User not authenticated."
  const UpdateInProgress := "Update already in progress."

  function Initial(): State {
    State(Null, true, false, None, [], 0)
  }

  /** Whether a callback created in `view` may call the API: authenticated with an ID token. */
  predicate SignedIn(view: View) {
    view.status == Authenticated && view.hasIdToken
  }

  /** `isLoadingGlobally`. */
  predicate IsLoadingGlobally(status: Status, isLoadingProfile: bool) {
    status == Loading || (status == Authenticated && isLoadingProfile)
  }

  /** Whether the provider renders the loading screen instead of its children. */
  predicate ShowsLoadingScreen(status: Status, isLoadingProfile: bool) {
    IsLoadingGlobally(status, isLoadingProfile) && status != Unauthenticated
  }

  /** The loading screen is shown exactly when loading is global: the test against
      'unauthenticated' never changes the outcome. */
  lemma LoadingScreenIffGlobal(status: Status, isLoadingProfile: bool)
    ensures ShowsLoadingScreen(status, isLoadingProfile) <==> IsLoadingGlobally(status, isLoadingProfile)
    ensures !IsLoadingGlobally(Unauthenticated, isLoadingProfile) && IsLoadingGlobally(Loading, isLoadingProfile)
  {
  }

  // ---------------------------------------------------------------- fetchUserProfile

  /** `fetchUserProfile` up to its await; the flag says whether the profile request was made. */
  function FetchStart(s: State, view: View): (r: (State, bool))
    ensures r.1 <==> SignedIn(view)
    ensures r.1 ==> r.0 == s.(isLoadingProfile := true, profileError := None)
    ensures view.status == Unauthenticated ==> r.0 == s.(profile := Null, profileError := None, isLoadingProfile := false)
    ensures view.status == Loading ==> r.0 == s.(isLoadingProfile := true)
    ensures view.status == Authenticated && !view.hasIdToken ==> r.0 == s
  {
    if SignedIn(view) then (s.(isLoadingProfile := true, profileError := None), true)
    else if view.status == Unauthenticated then (s.(profile := Null, profileError := None, isLoadingProfile := false), false)
    else if view.status == Loading then (s.(isLoadingProfile := true), false)
    else (s, false)
  }

  /** The rest of `fetchUserProfile` once the GET settles. */
  function FetchSettled(s: State, outcome: Result<Json, string>): (r: State)
    ensures !r.isLoadingProfile
    ensures outcome.Success? ==> r == s.(profile := outcome.value, isLoadingProfile := false)
    ensures outcome.Failure? ==>
              r == s.(profile := Null, profileError := Some(MessageOr(outcome.error, LoadFallback)), isLoadingProfile := false)
  {
    match outcome
    case Success(data) => s.(profile := data, isLoadingProfile := false)
    case Failure(m) => s.(profileError := Some(MessageOr(m, LoadFallback)), profile := Null, isLoadingProfile := false)
  }

  /** Once an authenticated fetch settles, whatever its outcome, the loading screen is gone. */
  lemma FetchEndsLoading(s: State, view: View, outcome: Result<Json, string>)
    requires SignedIn(view)
    ensures var started := FetchStart(s, view);
            started.1 && ShowsLoadingScreen(Authenticated, started.0.isLoadingProfile) &&
            !ShowsLoadingScreen(Authenticated, FetchSettled(started.0, outcome).isLoadingProfile)
  {
  }

  // ---------------------------------------------------------------- updateProfile

  /** `{...v}` in an object literal: an object's own members, an array's or a string's elements
      under their decimal indices, and nothing for `null`, `undefined`, booleans and numbers. */
  function Spread(v: Json): (m: map<string, Json>)
    ensures v.Obj? ==> m == v.fields
    ensures !v.Obj? && !v.Arr? && !v.Str? ==> m == map[]
  {
    match v
    case Obj(fields) => fields
    case Arr(items) => Indexed(items)
    case Str(s) => Indexed(seq(|s|, i requires 0 <= i < |s| => Str([s[i]])))
    case _ => map[]
  }

  /** The elements of a list keyed by their decimal indices. */
  function Indexed(xs: seq<Json>): (m: map<string, Json>)
    ensures forall i :: 0 <= i < |xs| ==> Text.Decimal(i) in m && m[Text.Decimal(i)] == xs[i]
    decreases |xs|
  {
    if xs == [] then map[]
    else
      Text.DecimalInjective();
      Indexed(xs[..|xs| - 1])[Text.Decimal(|xs| - 1) := xs[|xs| - 1]]
  }

  /** A spread list has no member besides its indices. */
  lemma {:induction false} IndexedHasOnlyIndices(xs: seq<Json>)
    ensures forall k :: k in Indexed(xs) ==> exists i :: 0 <= i < |xs| && k == Text.Decimal(i)
    decreases |xs|
  {
    if xs != [] {
      IndexedHasOnlyIndices(xs[..|xs| - 1]);
    }
  }

  /** `{ ...prevProfile, ...data }`: the members of `data` win and the previous profile's other
      members are kept. */
  function Merge(prev: Json, data: Json): (r: Json)
    ensures r.Obj?
    ensures r.fields.Keys == Spread(prev).Keys + Spread(data).Keys
    ensures forall k :: k in Spread(data) ==> r.fields[k] == Spread(data)[k]
    ensures forall k :: k in Spread(prev) && k !in Spread(data) ==> r.fields[k] == Spread(prev)[k]
  {
    Obj(Spread(prev) + Spread(data))
  }

  /** Merging the same reply twice changes nothing more, and a `null` reply (a 204) keeps the
      previous profile's members. */
  lemma MergeIdempotent(prev: Json, data: Json)
    ensures Merge(Merge(prev, data), data) == Merge(prev, data)
    ensures prev.Obj? ==> Merge(prev, Null) == prev
  {
    var once := Merge(prev, data);
    assert Spread(once) == once.fields;
    assert once.fields + Spread(data) == once.fields;
  }

  /** The request an update makes: PUT for a partial update, POST otherwise, with the payload as
      its body. */
  function UpdateOptions(payload: Json, partial: bool): (o: ApiClient.Options)
    ensures o.httpMethod == (if partial then "PUT" else "POST") && o.body == Some(payload)
  {
    ApiClient.Options(if partial then "PUT" else "POST", map[], Some(payload))
  }

  /** The request each of the provider's calls sends to `users/self` under the default version:
      the fetch with `ApiClient.GetOptions`, the update with `UpdateOptions`, the deletion with
      `ApiClient.DeleteOptions`. */
  function ProfileRequest(baseUrl: string, options: ApiClient.Options, idToken: Json): (r: ApiClient.Request)
    ensures r.url == baseUrl + "/api/v1/users/self"
    ensures r.httpMethod == options.httpMethod
    ensures r.body.Some? <==> JsTruthy(options.body)
    ensures r.body.Some? ==> r.body == options.body
  {
    ApiClient.BuildRequest(baseUrl, ProfileEndpoint, options, ApiClient.DefaultVersion, idToken)
  }

  /** A fetch is a bodiless GET and a deletion a bodiless DELETE; an update sends its payload
      whenever that is truthy. */
  lemma ProfileRequests(baseUrl: string, payload: Json, partial: bool, idToken: Json)
    ensures var r := ProfileRequest(baseUrl, ApiClient.GetOptions, idToken); r.httpMethod == "GET" && r.body.None?
    ensures var r := ProfileRequest(baseUrl, ApiClient.DeleteOptions, idToken); r.httpMethod == "DELETE" && r.body.None?
    ensures JsTruthyValue(payload) ==>
              ProfileRequest(baseUrl, UpdateOptions(payload, partial), idToken).body == Some(payload)
  {
  }

  /** How `updateProfile` begins: rejected with a thrown message, or started with a request. */
  datatype UpdateStart = Rejected(message: string) | Started(request: ApiClient.Options)

  /** `updateProfile(payload, partial)` up to its await. The in-progress test reads the
      `isUpdatingInternal` of the callback's render. */
  function UpdateBegin(s: State, view: View, payload: Json, partial: bool): (r: (State, UpdateStart))
    ensures !SignedIn(view) ==>
              r == (s.(toasts := s.toasts + [Toast("Authentication Error", "You must be signed in to update your profile.", "destructive")]),
                    Rejected(NotAuthenticated))
    ensures SignedIn(view) && view.isUpdating ==>
              r == (s.(toasts := s.toasts + [Toast("Update in Progress", "An update is already in progress. Please wait.", "default")]),
                    Rejected(UpdateInProgress))
    ensures SignedIn(view) && !view.isUpdating ==>
              r == (s.(isUpdatingInternal := true, profileError := None), Started(UpdateOptions(payload, partial)))
  {
    if !SignedIn(view) then
      (s.(toasts := s.toasts + [Toast("Authentication Error", "You must be signed in to update your profile.", "destructive")]),
       Rejected(NotAuthenticated))
    else if view.isUpdating then
      (s.(toasts := s.toasts + [Toast("Update in Progress", "An update is already in progress. Please wait.", "default")]),
       Rejected(UpdateInProgress))
    else (s.(isUpdatingInternal := true, profileError := None), Started(UpdateOptions(payload, partial)))
  }

  /** The rest of `updateProfile` once the call settles; the result is what the returned promise
      resolves or rejects with. */
  function UpdateSettled(s: State, outcome: Result<Json, string>): (r: (State, Result<Json, string>))
    ensures !r.0.isUpdatingInternal
    ensures r.1 == outcome
    ensures r.0.isLoadingProfile == s.isLoadingProfile && r.0.signOutCalls == s.signOutCalls
    ensures outcome.Success? ==>
              r.0.profile == Merge(s.profile, outcome.value) && r.0.profileError == s.profileError &&
              r.0.toasts == s.toasts + [Toast("Profile Updated", "Your profile information has been saved.", "default")]
    ensures outcome.Failure? ==>
              var shown := MessageOr(outcome.error, UpdateFallback);
              r.0.profile == s.profile && r.0.profileError == Some(shown) &&
              r.0.toasts == s.toasts + [Toast("Update Failed", shown, "destructive")]
  {
    match outcome
    case Success(data) =>
      (s.(profile := Merge(s.profile, data),
          toasts := s.toasts + [Toast("Profile Updated", "Your profile information has been saved.", "default")],
          isUpdatingInternal := false),
       outcome)
    case Failure(m) =>
      var shown := MessageOr(m, UpdateFallback);
      (s.(profileError := Some(shown), toasts := s.toasts + [Toast("Update Failed", shown, "destructive")],
          isUpdatingInternal := false),
       outcome)
  }

  /** The in-progress guard reads a captured flag: two updates started from the same render both
      go through, while one started after the first update's render is turned away. */
  lemma GuardSeesOnlyItsRender(s: State, view: View, p1: Json, p2: Json, partial: bool)
    requires SignedIn(view) && !view.isUpdating && !s.isUpdatingInternal
    ensures var first := UpdateBegin(s, view, p1, partial);
            first.1.Started? && first.0.isUpdatingInternal &&
            UpdateBegin(first.0, view, p2, partial).1.Started? &&
            UpdateBegin(first.0, view.(isUpdating := first.0.isUpdatingInternal), p2, partial).1 == Rejected(UpdateInProgress)
  {
  }

  // ---------------------------------------------------------------- deleteProfile

  /** `deleteProfile` up to its await: rejected with a thrown message, or the DELETE is made. */
  function DeleteBegin(s: State, view: View): (r: (State, Option<string>))
    ensures !SignedIn(view) ==>
              r == (s.(toasts := s.toasts + [Toast("Authentication Error", "You must be signed in to delete your profile.", "destructive")]),
                    Some(NotAuthenticated))
    ensures SignedIn(view) ==> r == (s.(isLoadingProfile := true, profileError := None), None)
  {
    if !SignedIn(view) then
      (s.(toasts := s.toasts + [Toast("Authentication Error", "You must be signed in to delete your profile.", "destructive")]),
       Some(NotAuthenticated))
    else (s.(isLoadingProfile := true, profileError := None), None)
  }

  /** The toast shown once the DELETE succeeds, before `signOut` is called. */
  const DeletedToast := Toast("Account Deleted", "Your account has been successfully deleted.", "default")

  /** The rest of `deleteProfile` once the DELETE settles, and, after a success, once `signOut`
      settles (`signOut` is `None` when the DELETE failed, so it was never called). A failure of
      either lands in the same handler. The result is `None` on success, the thrown message
      otherwise. */
  function DeleteSettled(s: State, outcome: Result<Json, string>, signOut: Result<(), string>): (r: (State, Option<string>))
    ensures r.0.profile == s.profile && r.0.isUpdatingInternal == s.isUpdatingInternal
    ensures outcome.Success? ==> r.0.signOutCalls == s.signOutCalls + 1
    ensures outcome.Failure? ==> r.0.signOutCalls == s.signOutCalls
    // Success leaves the loading flag as it was (true after `DeleteBegin`): the page is leaving.
    ensures r.1.None? <==> outcome.Success? && signOut.Success?
    ensures r.1.None? ==> r.0.isLoadingProfile == s.isLoadingProfile && r.0.profileError == s.profileError &&
                          r.0.toasts == s.toasts + [DeletedToast]
    ensures r.1.Some? ==>
              var shown := MessageOr(r.1.value, DeleteFallback);
              !r.0.isLoadingProfile && r.0.profileError == Some(shown) &&
              |r.0.toasts| > 0 && r.0.toasts[|r.0.toasts| - 1] == Toast("Deletion Failed", shown, "destructive")
    // The first failure is the one thrown, and its toast follows whatever was shown before it.
    ensures outcome.Failure? ==>
              r.1 == Some(outcome.error) &&
              r.0.toasts == s.toasts + [Toast("Deletion Failed", MessageOr(outcome.error, DeleteFallback), "destructive")]
    ensures outcome.Success? && signOut.Failure? ==>
              r.1 == Some(signOut.error) &&
              r.0.toasts == s.toasts + [DeletedToast, Toast("Deletion Failed", MessageOr(signOut.error, DeleteFallback), "destructive")]
  {
    match outcome
    case Failure(m) => (Failed(s, m), Some(m))
    case Success(_) =>
      var s1 := s.(toasts := s.toasts + [DeletedToast],
                   signOutCalls := s.signOutCalls + 1);
      match signOut
      case Success(_) => (s1, None)
      case Failure(m) => (Failed(s1, m), Some(m))
  }

  /** The `catch` block of `deleteProfile`. */
  function Failed(s: State, m: string): (r: State)
    ensures r.toasts == s.toasts + [Toast("Deletion Failed", MessageOr(m, DeleteFallback), "destructive")]
  {
    var shown := MessageOr(m, DeleteFallback);
    s.(profileError := Some(shown), toasts := s.toasts + [Toast("Deletion Failed", shown, "destructive")], isLoadingProfile := false)
  }

  /** A successful deletion keeps the loading screen up until the navigation away; a failed one
      takes it down. */
  lemma DeleteKeepsLoadingScreen(s: State, view: View, outcome: Result<Json, string>, signOut: Result<(), string>)
    requires SignedIn(view)
    ensures var settled := DeleteSettled(DeleteBegin(s, view).0, outcome, signOut);
            (settled.1.None? ==> ShowsLoadingScreen(Authenticated, settled.0.isLoadingProfile)) &&
            (settled.1.Some? ==> !ShowsLoadingScreen(Authenticated, settled.0.isLoadingProfile))
  {
  }

  // ---------------------------------------------------------------- the component's state

  class ProfileProvider {
    var profile: Json
    var isLoadingProfile: bool
    var isUpdatingInternal: bool
    var profileError: Option<string>
    var toasts: seq<Toast>
    var signOutCalls: nat

    function Snapshot(): State
      reads this
    {
      State(profile, isLoadingProfile, isUpdatingInternal, profileError, toasts, signOutCalls)
    }

    constructor ()
      ensures Snapshot() == Initial()
    {
      profile := Null;
      isLoadingProfile := true;
      isUpdatingInternal := false;
      profileError := None;
      toasts := [];
      signOutCalls := 0;
    }

    /** `fetchUserProfile` up to its await; `requested` says whether the GET was made. */
    method FetchUserProfile(view: View) returns (requested: bool)
      modifies this
      ensures (Snapshot(), requested) == FetchStart(old(Snapshot()), view)
    {
      if SignedIn(view) {
        isLoadingProfile := true;
        profileError := None;
        requested := true;
      } else {
        requested := false;
        if view.status == Unauthenticated {
          profile := Null;
          profileError := None;
          isLoadingProfile := false;
        } else if view.status == Loading {
          isLoadingProfile := true;
        }
      }
    }

    method OnProfileFetched(outcome: Result<Json, string>)
      modifies this
      ensures Snapshot() == FetchSettled(old(Snapshot()), outcome)
    {
      match outcome {
        case Success(data) =>
          profile := data;
        case Failure(m) =>
          profileError := Some(MessageOr(m, LoadFallback));
          profile := Null;
      }
      isLoadingProfile := false;
    }

    method UpdateProfile(view: View, payload: Json, partial: bool) returns (start: UpdateStart)
      modifies this
      ensures (Snapshot(), start) == UpdateBegin(old(Snapshot()), view, payload, partial)
    {
      if !SignedIn(view) {
        toasts := toasts + [Toast("Authentication Error", "You must be signed in to update your profile.", "destructive")];
        start := Rejected(NotAuthenticated);
      } else if view.isUpdating {
        toasts := toasts + [Toast("Update in Progress", "An update is already in progress. Please wait.", "default")];
        start := Rejected(UpdateInProgress);
      } else {
        isUpdatingInternal := true;
        profileError := None;
        start := Started(UpdateOptions(payload, partial));
      }
    }

    method OnProfileUpdated(outcome: Result<Json, string>) returns (result: Result<Json, string>)
      modifies this
      ensures (Snapshot(), result) == UpdateSettled(old(Snapshot()), outcome)
    {
      match outcome {
        case Success(data) =>
          var merged := Merge(profile, data);
          profile := merged;
          toasts := toasts + [Toast("Profile Updated", "Your profile information has been saved.", "default")];
        case Failure(m) =>
          var shown := MessageOr(m, UpdateFallback);
          profileError := Some(shown);
          toasts := toasts + [Toast("Update Failed", shown, "destructive")];
      }
      isUpdatingInternal := false;
      result := outcome;
    }

    method DeleteProfile(view: View) returns (rejection: Option<string>)
      modifies this
      ensures (Snapshot(), rejection) == DeleteBegin(old(Snapshot()), view)
    {
      if !SignedIn(view) {
        toasts := toasts + [Toast("Authentication Error", "You must be signed in to delete your profile.", "destructive")];
        rejection := Some(NotAuthenticated);
      } else {
        isLoadingProfile := true;
        profileError := None;
        rejection := None;
      }
    }

    method OnProfileDeleted(outcome: Result<Json, string>, signOut: Result<(), string>) returns (thrown: Option<string>)
      modifies this
      ensures (Snapshot(), thrown) == DeleteSettled(old(Snapshot()), outcome, signOut)
    {
      thrown := None;
      if outcome.Failure? {
        thrown := Some(outcome.error);
      } else {
        toasts := toasts + [DeletedToast];
        signOutCalls := signOutCalls + 1;
        if signOut.Failure? {
          thrown := Some(signOut.error);
        }
      }
      if thrown.Some? {
        var shown := MessageOr(thrown.value, DeleteFallback);
        profileError := Some(shown);
        toasts := toasts + [Toast("Deletion Failed", shown, "destructive")];
        isLoadingProfile := false;
      }
    }
  }
}
