/** The GitHub account actions of front/actions/settingsActions.js: asking the backend for the
    GitHub authorization URL, and asking it to unlink the account. */
module SettingsActions {
  import opened Wrappers
  import opened Json
  import ApiClient

  const ConnectEndpoint := "github/connect"
  const DisconnectEndpoint := "github/disconnect"
  const NoRedirect := "Failed to connect GitHub or redirect URL missing in response."

  /** The request `connectGitHub` sends through the client: a bodiless GET of `github/connect`
      under the default version, carrying the session's token. */
  function ConnectRequest(baseUrl: string, idToken: Json): (r: ApiClient.Request)
    ensures r.url == baseUrl + "/api/v1/github/connect"
    ensures r.httpMethod == "GET" && r.body.None?
    ensures r.headers == map["Authorization" := "Bearer " + JsString(idToken), "Content-Type" := "application/json"]
  {
    ApiClient.BuildRequest(baseUrl, ConnectEndpoint, ApiClient.GetOptions, ApiClient.DefaultVersion, idToken)
  }

  /** The request `disconnectGitHub` sends: a bodiless DELETE of `github/disconnect`. */
  function DisconnectRequest(baseUrl: string, idToken: Json): (r: ApiClient.Request)
    ensures r.url == baseUrl + "/api/v1/github/disconnect"
    ensures r.httpMethod == "DELETE" && r.body.None?
    ensures r.headers == map["Authorization" := "Bearer " + JsString(idToken), "Content-Type" := "application/json"]
  {
    ApiClient.BuildRequest(baseUrl, DisconnectEndpoint, ApiClient.DeleteOptions, ApiClient.DefaultVersion, idToken)
  }

  /** `connectGitHub`: the reply's truthy `redirectUrl`, or an error. A rejected call passes its
      error through. */
  function ConnectGitHub(reply: ApiClient.Outcome): (r: Result<Json, string>)
    ensures reply.Threw? ==> r == Failure(reply.message)
    ensures r.Success? <==> reply.Returned? && reply.value.Obj? && "redirectUrl" in reply.value.fields
                            && JsTruthyValue(reply.value.fields["redirectUrl"])
    ensures r.Success? ==> r.value == reply.value.fields["redirectUrl"]
    ensures reply.Returned? && r.Failure? ==> r.error == NoRedirect
  {
    match reply
    case Threw(m) => Failure(m)
    case Returned(v) =>
      if !JsTruthyValue(v) then Failure(NoRedirect)
      else match JsMember(Some(v), "redirectUrl")
        case Failure(typeError) => Failure(typeError)
        case Success(url) => if JsTruthy(url) then Success(url.value) else Failure(NoRedirect)
  }

  /** `disconnectGitHub`: whatever the call resolves with, including `null` for a 204; a rejected
      call passes its error through. */
  function DisconnectGitHub(reply: ApiClient.Outcome): (r: Result<Json, string>)
    ensures reply.Threw? <==> r.Failure?
    ensures reply.Threw? ==> r.error == reply.message
    ensures reply.Returned? ==> r.value == reply.value
  {
    match reply
    case Threw(m) => Failure(m)
    case Returned(v) => Success(v)
  }
}
