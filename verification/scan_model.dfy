/**
 * The scan-and-analyze screen as values: its four state fields, what a
 * request to `/analyze` carries, the outcomes the network can deliver, and
 * each handler as a function from the old state to the new one. The screen
 * exists twice in the client, as `pages/Home.jsx` (signed in) and
 * `Scanner.jsx` (anonymous); `Variant` says which copy is meant.
 */
module ScanModel {
  import opened Wrappers
  import opened Http

  /** Home: sends the stored token, checks `response.ok`, redirects when signed out.
      Scanner: none of the three. */
  datatype Variant = Home | Scanner

  /** A file chosen in the file input. Nothing in the handlers looks at its
      content type: the only filter is the file input's accept attribute, which asks the browser for images. */
  datatype File = File(name: string, contentType: string, bytes: seq<bv8>)

  /** The handle `URL.createObjectURL(file)` returns: opaque, never null,
      displaying the file it was made from. It is never revoked. */
  datatype ObjectUrl = BlobUrl(target: File)

  /** One entry of the multipart `FormData` body. */
  datatype FormField = FormField(name: string, file: File)

  /** A `POST` to the analysis endpoint. */
  datatype Request = Request(url: string, authorization: Option<string>, form: seq<FormField>)

  /** What `response.json()` makes of the body: a JSON object whose `message`
      may be missing (`undefined`), or a body that does not parse (it throws). */
  datatype Body = Json(message: Option<string>) | Unparsable

  /** How one `fetch` ends: a response with its status, or a rejected promise. */
  datatype Outcome = Response(status: int, body: Body) | TransportFailure

  /** What the `try` block of `handleAnalyze` does with an outcome: either it
      throws before `setResult`, or it calls `setResult(data.message)`. */
  datatype Delivery = Threw | SetResult(message: Option<string>)

  /** The four `useState` fields. `None` stands for `null` and `undefined`. */
  datatype State = State(
    imageFile: Option<File>,
    imagePreview: Option<ObjectUrl>,
    loading: bool,
    result: Option<string>)

  /** The upper card: the upload prompt with the hidden file input, or the
      preview with the analyze button (disabled and spinning while loading)
      and the Cancel / Retake button. */
  datatype Card = UploadPrompt | PreviewCard(src: ObjectUrl, analyzeDisabled: bool, spinner: bool)

  /** What is on screen: the upper card and, when present, the markdown text
      handed to the report renderer. */
  datatype View = View(card: Card, report: Option<string>)

  const HomeEndpoint: string := "https://know-your-food-4toj.onrender.com/analyze"
  const ScannerEndpoint: string := "http://127.0.0.1:8000/analyze"
  const HomeAlert: string := "Analysis failed. Please try again."
  const ScannerAlert: string := "Could not connect to the backend."
  const FileField: string := "file"
  const LoginRoute: string := "/"

  function Endpoint(v: Variant): string
  {
    match v
    case Home => HomeEndpoint
    case Scanner => ScannerEndpoint
  }

  function FailureAlert(v: Variant): string
  {
    match v
    case Home => HomeAlert
    case Scanner => ScannerAlert
  }

  /** JavaScript truthiness of a string-or-null: `null` and `""` are falsy. */
  predicate Truthy(o: Option<string>)
  {
    o.Some? && o.value != ""
  }

  /** `${token}` inside a template literal: `null` prints as `null`. */
  function TokenText(stored: Option<string>): string
  {
    if stored.Some? then stored.value else "null"
  }

  /** The state every screen starts in. */
  function Initial(): State
  {
    State(None, None, false, None)
  }

  /** The preview always displays the file that is held, and exists exactly
      when a file is held. Every handler keeps this. */
  predicate Coherent(s: State)
  {
    s.imagePreview == if s.imageFile.Some? then Some(BlobUrl(s.imageFile.value)) else None
  }

  /** The mount-time effect of Home: with no (truthy) token stored it
      navigates to the login route. Scanner has no such effect. */
  function MountRedirect(v: Variant, stored: Option<string>): (r: Option<string>)
    ensures r.Some? <==> v == Home && !Truthy(stored)
    ensures r.Some? ==> r.value == LoginRoute
  {
    if v == Home && !Truthy(stored) then Some(LoginRoute) else None
  }

  /** `handleUpload` with `e.target.files[0]` (`None` when the dialog was dismissed). */
  function Pick(s: State, file: Option<File>): (r: State)
    ensures Coherent(s) ==> Coherent(r)
    ensures r.loading == s.loading
  {
    match file
    case None => s
    case Some(f) => s.(imageFile := Some(f), imagePreview := Some(BlobUrl(f)), result := None)
  }

  /** The request `handleAnalyze` builds for a held file, with the token read
      from storage at that moment. */
  function RequestFor(v: Variant, f: File, stored: Option<string>): (r: Request)
    ensures r.form == [FormField(FileField, f)]
    ensures r.authorization.Some? <==> v == Home
    ensures v == Home ==> r.authorization.value == "Bearer " + TokenText(stored)
  {
    Request(Endpoint(v), if v == Home then Some("Bearer " + TokenText(stored)) else None, [FormField(FileField, f)])
  }

  /** The synchronous part of `handleAnalyze`, up to the `await`: the new state
      and the request sent, if any. */
  function Analyze(v: Variant, s: State, stored: Option<string>): (r: (State, Option<Request>))
    ensures r.1.Some? <==> s.imageFile.Some?
    ensures r.1.None? ==> r.0 == s
    ensures r.1.Some? ==> r.0 == s.(loading := true) && r.1.value.form == [FormField(FileField, s.imageFile.value)]
  {
    if s.imageFile.None? then (s, None)
    else (s.(loading := true), Some(RequestFor(v, s.imageFile.value, stored)))
  }

  /** The `try` block after the `await`: Home throws on a status outside
      200-299; both throw when the body does not parse; otherwise the body's
      `message` goes to `setResult` as it is. */
  function Delivered(v: Variant, o: Outcome): (d: Delivery)
    ensures d.SetResult? ==> o.Response? && o.body == Json(d.message)
    ensures d.SetResult? <==> o.Response? && o.body.Json? && (v == Scanner || IsOk(o.status))
  {
    match o
    case TransportFailure => Threw
    case Response(status, body) =>
      if v == Home && !IsOk(status) then Threw
      else
        match body
        case Unparsable => Threw
        case Json(message) => assert v.Scanner? || IsOk(status); SetResult(message)
  }

  /** The part of `handleAnalyze` after the `await`, including its `finally`. */
  function Settle(v: Variant, s: State, o: Outcome): (r: State)
    ensures !r.loading
    ensures r.imageFile == s.imageFile && r.imagePreview == s.imagePreview
    ensures r.result == if Delivered(v, o).SetResult? then Delivered(v, o).message else s.result
  {
    match Delivered(v, o)
    case Threw => s.(loading := false)
    case SetResult(message) => s.(result := message, loading := false)
  }

  /** The `alert` raised by the `catch` block, if any. */
  function Alert(v: Variant, o: Outcome): (a: Option<string>)
    ensures a.Some? <==> o.TransportFailure? || o.body.Unparsable? || (v == Home && !IsOk(o.status))
    ensures a.Some? ==> a.value == (if v == Home then HomeAlert else ScannerAlert)
  {
    if Delivered(v, o).Threw? then Some(FailureAlert(v)) else None
  }

  /** The Cancel / Retake button's handler. */
  function Retake(s: State): (r: State)
    ensures Coherent(r) && r.loading == s.loading
    ensures r.imageFile.None? && r.result.None?
    ensures Render(r) == View(UploadPrompt, None)
  {
    s.(imagePreview := None, imageFile := None, result := None)
  }

  /** The render function, reduced to the three decisions it makes: prompt
      or preview (`!imagePreview`), button disabled (`loading`), report card
      (`result &&`). The report text reaches the markdown renderer as it is. */
  function Render(s: State): (r: View)
    ensures r.card.UploadPrompt? <==> s.imagePreview.None?
    ensures r.card.PreviewCard? ==> r.card.src == s.imagePreview.value && r.card.analyzeDisabled == s.loading
    ensures r.report.Some? <==> Truthy(s.result)
    ensures r.report.Some? ==> r.report == s.result
  {
    View(
      if s.imagePreview.None? then UploadPrompt else PreviewCard(s.imagePreview.value, s.loading, s.loading),
      if Truthy(s.result) then s.result else None)
  }

  /** Held image, prompt and report: the prompt is shown exactly when no image
      is held, the analyze button is disabled exactly while loading, and the
      report appears exactly when the result is a non-empty text, which it
      shows unchanged. */
  lemma ViewFollowsState(s: State)
    requires Coherent(s)
    ensures Render(s).card.UploadPrompt? <==> s.imageFile.None?
    ensures Render(s).card.PreviewCard? ==> Render(s).card.src == BlobUrl(s.imageFile.value)
    ensures Render(s).card.PreviewCard? ==> (Render(s).card.analyzeDisabled <==> s.loading)
    ensures Render(s).report.Some? <==> Truthy(s.result)
    ensures Render(s).report.Some? ==> Render(s).report == s.result
  {
  }

  /** An enabled analyze button always leads to a request: the button is only
      rendered while an image is held, and `handleAnalyze` sends whenever one is. */
  lemma EnabledButtonSends(v: Variant, s: State, stored: Option<string>)
    requires Coherent(s)
    requires Render(s).card.PreviewCard? && !Render(s).card.analyzeDisabled
    ensures Analyze(v, s, stored).1.Some?
    ensures Analyze(v, s, stored).0.loading
    ensures Render(Analyze(v, s, stored).0).card.analyzeDisabled
  {
  }

  /** `handleAnalyze` does not look at `loading`: called again while a request
      is pending it sends a second one. Only the disabled button prevents it. */
  lemma AnalyzeIgnoresLoading(v: Variant, s: State, stored: Option<string>)
    requires s.loading && s.imageFile.Some?
    ensures Analyze(v, s, stored).1.Some?
    ensures Render(s).card.PreviewCard? ==> Render(s).card.analyzeDisabled
  {
  }

  /** A successful analysis puts the server's message on screen exactly as sent. */
  lemma ReportShowsMessage(v: Variant, s: State, o: Outcome, m: string)
    requires o.Response? && o.body == Json(Some(m)) && m != ""
    requires v == Scanner || IsOk(o.status)
    ensures Render(Settle(v, s, o)).report == Some(m)
  {
  }

  /** The two copies settle every outcome alike except a response whose status
      is outside 200-299: Home keeps the old result, Scanner stores whatever
      `message` the body has (none, for the service's error bodies). Their
      alert texts differ on every failure; see `Alert`. */
  lemma SettleDiffersOnlyOnErrorStatus(s: State, o: Outcome)
    ensures o.TransportFailure? || IsOk(o.status) ==> Settle(Home, s, o) == Settle(Scanner, s, o)
    ensures o.Response? && !IsOk(o.status) ==>
      Settle(Home, s, o).result == s.result &&
      Settle(Scanner, s, o).result == (if o.body.Json? then o.body.message else s.result)
  {
  }

  /** Cancel / Retake empties the screen back to the upload prompt, with no
      report, whatever it held; it leaves `loading` alone. */
  lemma RetakeClears(s: State)
    ensures Retake(s) == Initial().(loading := s.loading)
    ensures Coherent(Retake(s))
    ensures Render(Retake(s)) == View(UploadPrompt, None)
  {
  }

  /** Home's request is authorised with whatever is stored when the button is
      pressed, including the literal text `null` when nothing is. */
  lemma HomeBearerIsTokenAtCallTime(s: State, stored: Option<string>)
    requires s.imageFile.Some?
    ensures Analyze(Home, s, stored).1.value.authorization ==
      Some("Bearer " + if stored.Some? then stored.value else "null")
    ensures Analyze(Home, s, stored).1.value.url == HomeEndpoint
    ensures Analyze(Scanner, s, stored).1.value.authorization.None?
    ensures Analyze(Scanner, s, stored).1.value.url == ScannerEndpoint
  {
  }
}
