/**
 * The credential sign-in dialog (src/components/SignIn.jsx): it posts the
 * e-mail and password to the login or register endpoint, and turns the
 * reply into a stored token and a signed-in user, or into one error message.
 */
module Auth {
  import opened JsRuntime
  import opened Orchestrator

  /** The configured API base URL. */
  const ApiUrl := "https://villa-finder-backend.onrender.com"
  const UsersPath := "/api/users/"
  const TokenKey := "userToken"

  const NotFoundMessage := "Backend service not found. Please try again later."
  const AuthFailedMessage := "Authentication failed. Please check your credentials and try again."
  const InvalidResponseMessage := "Invalid response from server"
  const ConnectFallback := "Failed to connect to the server. Please try again."

  /** The endpoint name: "register" exactly in sign-up mode, "login" exactly otherwise. */
  function Endpoint(isSignUp: bool): (r: string)
    ensures r == "register" <==> isSignUp
    ensures r == "login" <==> !isSignUp
  {
    if isSignUp then "register" else "login"
  }

  /** The URL the dialog posts to: the API base, the users path, then the endpoint. */
  function AuthUrl(isSignUp: bool): (url: string)
    ensures |url| > |ApiUrl| + |UsersPath| && url[..|ApiUrl|] == ApiUrl
    ensures url[|ApiUrl|..|ApiUrl| + |UsersPath|] == UsersPath
    ensures url[|ApiUrl| + |UsersPath|..] == Endpoint(isSignUp)
  {
    var url := ApiUrl + UsersPath + Endpoint(isSignUp);
    assert url[|ApiUrl|..|ApiUrl| + |UsersPath|] == UsersPath;
    assert url[|ApiUrl| + |UsersPath|..] == Endpoint(isSignUp);
    url
  }

  /**
   * The reply body: reading it failed (as text for a non-OK reply, as JSON
   * for an OK one), it is a falsy JSON value such as `null`, or it is an
   * object.
   */
  datatype Body = Unreadable(message: string) | Falsy | Object(data: UserData)

  /** What `fetch` produced: a rejection with its message, or a reply. */
  datatype Response = Rejected(message: string) | Reply(status: int, body: Body)

  /** `response.ok`. */
  predicate IsOk(status: int) {
    200 <= status <= 299
  }

  datatype AuthOutcome = SignedIn(data: UserData, token: string) | Refused(message: string)

  /** `err.message || fallback`. */
  function ErrorText(thrown: string): (r: string)
    ensures r != ""
    ensures thrown != "" ==> r == thrown
  {
    if thrown == "" then ConnectFallback else thrown
  }

  /**
   * The outcome of one submission: only an OK reply whose body carries a
   * truthy token signs in; every other reply or failure is refused with one
   * message.
   */
  function Classify(r: Response): (o: AuthOutcome)
    ensures o.SignedIn? <==> r.Reply? && IsOk(r.status) && r.body.Object? && Truthy(r.body.data.token)
    ensures o.SignedIn? ==> o.data == r.body.data && o.token == r.body.data.token.value && o.token != ""
    ensures o.Refused? ==> o.message != ""
    ensures r.Reply? && !IsOk(r.status) && r.status == 404 ==> o == Refused(NotFoundMessage)
    ensures r.Reply? && !IsOk(r.status) && r.status != 404 && !r.body.Unreadable? ==> o == Refused(AuthFailedMessage)
    ensures r.Reply? && IsOk(r.status) && (r.body.Falsy? || (r.body.Object? && !Truthy(r.body.data.token))) ==>
      o == Refused(InvalidResponseMessage)
    ensures r.Rejected? ==> o == Refused(ErrorText(r.message))
    ensures r.Reply? && r.status != 404 && r.body.Unreadable? ==> o == Refused(ErrorText(r.body.message))
  {
    match r
    case Rejected(m) => Refused(ErrorText(m))
    case Reply(status, body) =>
      if !IsOk(status) then
        if status == 404 then Refused(NotFoundMessage)
        else if body.Unreadable? then Refused(ErrorText(body.message))
        else Refused(AuthFailedMessage)
      else
        match body
        case Unreadable(m) => Refused(ErrorText(m))
        case Falsy => Refused(InvalidResponseMessage)
        case Object(data) =>
          if Truthy(data.token) then SignedIn(data, data.token.value)
          else Refused(InvalidResponseMessage)
  }

  /** Every non-OK status other than 404 with a readable body gets the same message. */
  lemma NonOkStatusesAgree(s1: int, s2: int, b1: Body, b2: Body)
    requires !IsOk(s1) && !IsOk(s2) && s1 != 404 && s2 != 404
    requires !b1.Unreadable? && !b2.Unreadable?
    ensures Classify(Reply(s1, b1)) == Classify(Reply(s2, b2))
  {
  }

  class SignIn {
    /** The orchestrator whose `handleSignIn` and dialog `onClose` the dialog calls. */
    const app: App
    var email: string
    var password: string
    var isSignUp: bool
    var error: string
    var loading: bool

    constructor (app: App)
      ensures this.app == app
      ensures email == "" && password == "" && !isSignUp && error == "" && !loading
    {
      this.app := app;
      email, password, isSignUp, error, loading := "", "", false, "", false;
    }

    /** The "Sign up" / "Sign in" link: switches mode and clears the message. */
    method ToggleSignUp()
      modifies this
      ensures isSignUp == !old(isSignUp) && error == ""
      ensures email == old(email) && password == old(password) && loading == old(loading)
    {
      isSignUp := !isSignUp;
      error := "";
    }

    /**
     * `handleSubmit`, once the reply is in. It clears the message and raises
     * `loading`; on success it stores the token, then calls `onSignIn` and
     * then `onClose`; on failure it shows the message and touches neither the
     * orchestrator nor storage. `loading` ends false either way. `url` is the
     * URL posted to.
     */
    method Submit(response: Response) returns (url: string, outcome: AuthOutcome)
      modifies this, app, app.storage
      ensures url == AuthUrl(isSignUp) && outcome == Classify(response) && !loading
      ensures email == old(email) && password == old(password) && isSignUp == old(isSignUp)
      ensures app.darkMode == old(app.darkMode)
      ensures outcome.SignedIn? ==>
        error == ""
        && app.storage.items == old(app.storage.items)[TokenKey := outcome.token]
        && app.user == Some(outcome.data) && app.isLoggedIn
        && !app.isSignInOpen && !app.pendingBooking && app.AtRest()
      ensures outcome.Refused? ==>
        error == outcome.message
        && app.storage.items == old(app.storage.items)
        && app.user == old(app.user) && app.isLoggedIn == old(app.isLoggedIn)
        && app.isSignInOpen == old(app.isSignInOpen) && app.pendingBooking == old(app.pendingBooking)
    {
      error := "";
      loading := true;
      url := AuthUrl(isSignUp);
      outcome := Classify(response);
      if outcome.SignedIn? {
        app.storage.SetItem(TokenKey, outcome.token);
        app.HandleSignIn(outcome.data);
        app.CloseSignIn();
      } else {
        error := outcome.message;
      }
      loading := false;
    }
  }
}
