/**
 * The login form's submit handler (`handleLogin` in `pages/Login.jsx`):
 * it clears the error, posts the entered email and password to `/login`,
 * and on a good answer stores the token and moves to the scan route;
 * anything thrown on the way ends up as the visible error text.
 *
 * The handler is asynchronous; `BeginLogin` is its part before the
 * `await`, `CompleteLogin` the part after, given how the `fetch` ended.
 */
module Login {
  import opened Wrappers
  import opened Storage
  import opened Http

  const DevApiUrl: string := "http://127.0.0.1:8000"
  const ProdApiUrl: string := "https://know-your-food-4toj.onrender.com"
  const FormContentType: string := "application/x-www-form-urlencoded"
  const FallbackError: string := "Login failed"
  const ScanRoute: string := "/scan"

  /** A `POST` of a URL-encoded form. */
  datatype LoginRequest = LoginRequest(url: string, contentType: string, fields: seq<(string, string)>)

  /** What `response.json()` makes of the body: a JSON object whose `detail`
      and `access_token` may each be missing, or a body that does not parse,
      with the message of the `SyntaxError` it throws. */
  datatype LoginBody = Json(detail: Option<string>, accessToken: Option<string>) | Unparsable(syntaxError: string)

  /** How one `fetch` ends: a response, or a rejection with its error message. */
  datatype LoginOutcome = Response(status: int, body: LoginBody) | TransportFailure(reason: string)

  /** What the rest of the handler does: the `catch` sets the error text to
      the thrown message, or the token is stored and the route changes. */
  datatype LoginEffect = Failed(message: string) | SignedIn(token: string)

  /** `import.meta.env.DEV ? local : hosted`. */
  function ApiUrl(dev: bool): string
  {
    if dev then DevApiUrl else ProdApiUrl
  }

  /** The request for the entered credentials: the email goes under
      `username`, the password under `password`. */
  function LoginRequestFor(dev: bool, email: string, password: string): (r: LoginRequest)
    ensures r.fields == [("username", email), ("password", password)]
    ensures r.contentType == FormContentType
    ensures dev ==> r.url == "http://127.0.0.1:8000/login"
    ensures !dev ==> r.url == "https://know-your-food-4toj.onrender.com/login"
  {
    LoginRequest(ApiUrl(dev) + "/login", FormContentType, [("username", email), ("password", password)])
  }

  /** `data.detail || 'Login failed'`: an absent or empty detail falls back. */
  function FailureText(detail: Option<string>): (m: string)
    ensures m != ""
    ensures detail.Some? && detail.value != "" ==> m == detail.value
    ensures detail.None? || detail.value == "" ==> m == "Login failed"
  {
    if detail.Some? && detail.value != "" then detail.value else FallbackError
  }

  /** `localStorage.setItem('token', data.access_token)` with a missing field
      stores the text `undefined`. */
  function StoredText(accessToken: Option<string>): (t: string)
    ensures accessToken.Some? ==> t == accessToken.value
    ensures accessToken.None? ==> t == "undefined"
  {
    if accessToken.Some? then accessToken.value else "undefined"
  }

  /** Everything after the `await`, as one effect. */
  function Conclude(o: LoginOutcome): (e: LoginEffect)
    ensures e.SignedIn? <==> o.Response? && IsOk(o.status) && o.body.Json?
    ensures e.SignedIn? ==> e.token == StoredText(o.body.accessToken)
    ensures o.Response? && !IsOk(o.status) && o.body.Json? ==>
      e == Failed(FailureText(o.body.detail)) && e.message != ""
    ensures o.TransportFailure? ==> e == Failed(o.reason)
    ensures o.Response? && o.body.Unparsable? ==> e == Failed(o.body.syntaxError)
  {
    match o
    case TransportFailure(reason) => Failed(reason)
    case Response(status, body) =>
      match body
      case Unparsable(syntaxError) => Failed(syntaxError)
      case Json(detail, accessToken) =>
        if !IsOk(status) then Failed(FailureText(detail)) else SignedIn(StoredText(accessToken))
  }

  /** What storage holds for `'token'` after the handler, given what it held
      before: only a sign-in writes it, and nothing ever removes it. */
  function TokenAfter(o: LoginOutcome, before: Option<string>): (t: Option<string>)
    ensures Conclude(o).SignedIn? ==> t == Some(Conclude(o).token)
    ensures Conclude(o).Failed? ==> t == before
    ensures before.Some? ==> t.Some?
  {
    match Conclude(o)
    case SignedIn(token) => Some(token)
    case Failed(_) => before
  }

  /** The error paragraph is rendered exactly when the error text is truthy. */
  predicate ErrorVisible(error: string)
  {
    error != ""
  }

  /** The error text once the whole handler has run: cleared at the start,
      then the thrown message if something threw. */
  function ErrorAfterSubmit(o: LoginOutcome): (e: string)
    ensures ErrorVisible(e) <==> Conclude(o).Failed? && Conclude(o).message != ""
    ensures o.Response? && !IsOk(o.status) && o.body.Json? ==> ErrorVisible(e)
    ensures Conclude(o).SignedIn? ==> !ErrorVisible(e)
  {
    match Conclude(o)
    case Failed(message) => message
    case SignedIn(_) => ""
  }

  /** A submit followed by the failure response of the service always leaves
      a visible error: the body's `detail` when it has a non-empty one, and
      `Login failed` otherwise. Storage keeps what it held. */
  lemma RejectedLoginIsReported(status: int, detail: Option<string>, accessToken: Option<string>, before: Option<string>)
    requires !IsOk(status)
    ensures var e := Conclude(Response(status, Json(detail, accessToken)));
      e.Failed? && ErrorVisible(e.message) &&
      e.message == (if detail.Some? && detail.value != "" then detail.value else "Login failed")
    ensures TokenAfter(Response(status, Json(detail, accessToken)), before) == before
  {
  }

  class LoginForm {
    /** `import.meta.env.DEV`, fixed when the client is built. */
    const dev: bool
    const storage: LocalStorage

    var email: string
    var password: string
    var error: string

    constructor (dev: bool, storage: LocalStorage)
      ensures this.dev == dev && this.storage == storage
      ensures email == "" && password == "" && error == ""
    {
      this.dev := dev;
      this.storage := storage;
      email := "";
      password := "";
      error := "";
    }

    /** The email input's change handler. */
    method ChangeEmail(value: string)
      modifies this
      ensures email == value && password == old(password) && error == old(error)
    {
      email := value;
    }

    /** The password input's change handler. */
    method ChangePassword(value: string)
      modifies this
      ensures password == value && email == old(email) && error == old(error)
    {
      password := value;
    }

    /** Whether the error paragraph is on screen. */
    predicate ShowsError()
      reads this
    {
      ErrorVisible(error)
    }

    /** `handleLogin` up to the `await`: the error is cleared first, then the
        entered credentials are posted. Storage is not touched. */
    method BeginLogin() returns (request: LoginRequest)
      modifies this
      ensures error == "" && !ShowsError()
      ensures email == old(email) && password == old(password)
      ensures request == LoginRequestFor(dev, email, password)
    {
      error := "";
      var url := ApiUrl(dev) + "/login";
      request := LoginRequest(url, FormContentType, [("username", email), ("password", password)]);
    }

    /** `handleLogin` after the `await`. A status outside 200-299 throws
        before the token is stored and before navigating, as does a failed
        `fetch` or an unparsable body; the thrown message becomes the error.
        Otherwise the token is stored and the route becomes `/scan`. A stored
        token is never removed here. */
    method CompleteLogin(outcome: LoginOutcome) returns (navigateTo: Option<string>)
      modifies this, storage
      ensures email == old(email) && password == old(password)
      ensures storage.token == TokenAfter(outcome, old(storage.token))
      ensures Conclude(outcome).Failed? ==>
        error == Conclude(outcome).message && navigateTo.None?
      ensures Conclude(outcome).SignedIn? ==>
        navigateTo == Some(ScanRoute) && error == old(error)
    {
      navigateTo := None;
      match outcome {
        case TransportFailure(reason) =>
          error := reason;
        case Response(status, body) =>
          if !IsOk(status) {
            match body {
              case Unparsable(syntaxError) =>
                error := syntaxError;
              case Json(detail, _) =>
                error := FailureText(detail);
            }
          } else {
            match body {
              case Unparsable(syntaxError) =>
                error := syntaxError;
              case Json(_, accessToken) =>
                storage.token := Some(StoredText(accessToken));
                navigateTo := Some(ScanRoute);
            }
          }
      }
    }

    /** The whole of `handleLogin`, for one way the `fetch` can end: the
        request goes out with the entered credentials, and afterwards the
        error paragraph shows exactly when the login failed with a message. */
    method HandleLogin(outcome: LoginOutcome) returns (request: LoginRequest, navigateTo: Option<string>)
      modifies this, storage
      ensures request == LoginRequestFor(dev, old(email), old(password))
      ensures email == old(email) && password == old(password)
      ensures error == ErrorAfterSubmit(outcome)
      ensures ShowsError() <==> Conclude(outcome).Failed? && Conclude(outcome).message != ""
      ensures storage.token == TokenAfter(outcome, old(storage.token))
      ensures navigateTo.Some? <==> Conclude(outcome).SignedIn?
      ensures navigateTo.Some? ==> navigateTo.value == ScanRoute
    {
      request := BeginLogin();
      navigateTo := CompleteLogin(outcome);
    }
  }
}
