# know-your-food: the scan-and-analyze screen and the login handler

A model of the client side of know-your-food. A user picks a photo of an
ingredient label. The screen previews it and posts it to the analysis
service. It then shows the markdown report the service sends back.

The screen exists twice in the client:

- `pages/Home.jsx` is the signed-in copy. It sends the stored token as a
  bearer header, checks `response.ok`, and redirects to the login route
  when it mounts without a token.
- `Scanner.jsx` is the anonymous copy. It does none of those three things.

Both copies are one class here, `ScanScreen.Screen`, whose `variant` says
which copy it is. The login form (`pages/Login.jsx`) is modelled too. It is
the one writer of the token that the signed-in screen reads. `localStorage`
is one shared object, `Storage.LocalStorage`, holding the `token` entry.

Layout:

- `wrappers.dfy`: `Option`, standing for `null` and `undefined`.
- `storage.dfy`: the `token` entry of `localStorage`, as a class.
- `scan_model.dfy`: the screen's state, requests and network outcomes as
  values. Each handler is a function from the old state to the new one, and
  the render function is projected onto the decisions it makes.
- `scan_screen.dfy`: the screen as a class with the four React state fields.
  Each handler is a method that updates them in place and is proved against
  its function in `scan_model.dfy`.
- `scan_trace.dfy`: whole sessions, meaning any sequence of uploads, clicks
  and network arrivals. Lemmas by induction hold over every session.
- `login.dfy`: `handleLogin` as a function of the response, and the login
  form as a class.
- `http.dfy`: `response.ok`, shared by both screens and the login form.
- `handoff.dfy`: a login followed by the signed-in screen over the same
  storage object.

The asynchronous handlers are split at their `await`. `BeginAnalyze` is the
part before it: the guard, `loading := true` and building the request. It
returns the request that `fetch` would send. `CompleteAnalyze(outcome)` is
the rest of the `try`, the `catch` and the `finally`, given how the `fetch`
ended. The login handler is split the same way.

Behaviour of the code that the model keeps, even where a cleaner design
would differ:

- Nothing suppresses a stale response. A response that arrives after
  Cancel / Retake still sets the result, so a report can appear with no
  image (`ScanTrace.LateResponseStillShown`).
- `handleAnalyze` does not look at `loading`. Only the disabled button
  prevents a second request (`ScanModel.AnalyzeIgnoresLoading`).
- Picking a file checks no content type.
- Cancel / Retake is rendered only inside the preview card. It does not
  reset `loading`.
- A 401 does not clear the token.
- Home sends `Bearer null` when nothing is stored, because a template
  literal prints `null`.
- Home redirects on mount for a missing token and also for an empty one,
  since `!token` is true for both.
- Scanner stores `data.message` for every body that parses, whatever the
  status. An error body from the service has no `message`, so it replaces
  an earlier report with `undefined` and hides it.
- A successful login whose body lacks `access_token` stores the text
  `undefined` (`Handoff.MissingTokenStoredAsUndefined`).

The code distinguishes no error kinds beyond "the `try` block threw", never
clears a stored token, never tags a request with the image it was built from,
and never checks a file's content type. The model has none of these either.

## Model

| member | source | states |
|---|---|---|
| `ScanScreen.Screen.constructor` | frontend/src/pages/Home.jsx:17-20 | The screen starts with no file, no preview, not loading and no result, which is the coherent initial state. Scanner.jsx:6-9 starts the same way. |
| `ScanScreen.Screen.Mount` | frontend/src/pages/Home.jsx:10-15 | Mounting redirects to `/` exactly when the screen is Home and the stored token is null or empty. Scanner never redirects. |
| `ScanModel.MountRedirect` | frontend/src/pages/Home.jsx:10-15 | The redirect happens exactly for Home with a falsy stored token, and its target is the login route `/`. |
| `ScanScreen.Screen.HandleUpload` | frontend/src/pages/Home.jsx:22-29 | A chosen file becomes `imageFile`. The preview becomes a handle on that file and the result is cleared. With no file all four fields stay as they were. `loading` is never touched and the preview/file coherence is kept. Scanner.jsx:11-18 is identical. |
| `ScanModel.Pick` | frontend/src/pages/Home.jsx:22-29 | Picking keeps preview/file coherence and never changes `loading`. |
| `ScanScreen.Screen.BeginAnalyze` | frontend/src/pages/Home.jsx:32-50 | With no image, no request is made and no field changes. With an image, `loading` becomes true and exactly one request is returned. The request carries the held file under `file` and the token read from storage at call time. File, preview and result are unchanged. Scanner.jsx:20-32 posts to a different endpoint (the local `http://127.0.0.1:8000/analyze`), sends no header and reads no storage. |
| `ScanModel.Analyze` | frontend/src/pages/Home.jsx:32-37 | A request is produced exactly when an image is held. Otherwise the state is unchanged. When a request is sent, only `loading` changes (to true), and the request's only form field is the held file under `file`. |
| `ScanModel.RequestFor` | frontend/src/pages/Home.jsx:36-50 | The body is the single field `file` holding the image. The Authorization header is present exactly on Home, where it is `Bearer ` followed by the stored token, or `null` when none is stored. |
| `ScanScreen.Screen.CompleteAnalyze` | frontend/src/pages/Home.jsx:52-64 | `loading` is false afterwards whatever the outcome. File and preview are never changed. Without an alert, the result is the body's `message` unmodified. With an alert, meaning the block threw, the result is unchanged. The card stays as it was with the analyze button enabled again, and a non-empty delivered message is what the report shows. |
| `ScanModel.Delivered` | frontend/src/Scanner.jsx:29-41 | `setResult` is reached exactly for a response whose body parses, on Scanner whatever the status and on Home only with a status of 200-299 (Home.jsx:52-57). It is reached with that body's own `message`. |
| `ScanModel.Settle` | frontend/src/pages/Home.jsx:52-64 | `loading` becomes false and file and preview are unchanged. The result becomes the delivered message, or stays as it was when the block threw. Scanner.jsx:33-44 is the same without the status check. |
| `ScanModel.Alert` | frontend/src/pages/Home.jsx:52-61 | An alert is raised exactly for a transport failure, for a body that does not parse, and on Home for a status outside 200-299. Home's text is `Analysis failed. Please try again.`; Scanner.jsx:38-41 uses `Could not connect to the backend.` |
| `ScanScreen.Screen.Retake` | frontend/src/pages/Home.jsx:101 | Preview, file and result all become null, `loading` is left as it was, coherence is kept, and the screen shows the upload prompt with no report. Scanner.jsx:80 is identical. |
| `ScanModel.Retake` | frontend/src/pages/Home.jsx:101 | The state after Cancel / Retake holds no file and no result, is coherent, keeps `loading`, and renders as the upload prompt with no report. |
| `ScanModel.Render` | frontend/src/pages/Home.jsx:81-118 | The upload prompt shows exactly when there is no preview, and otherwise the preview shows that handle with the analyze button disabled exactly while loading. The report appears exactly when the result is a non-empty text and hands that text unchanged to the renderer. Scanner.jsx:60-98 is identical. |
| `ScanModel.RetakeClears` | frontend/src/Scanner.jsx:80 | After Cancel / Retake the state is the initial one, except for `loading`. It is coherent, and the screen shows the upload prompt and no report. |
| `ScanModel.ViewFollowsState` | frontend/src/pages/Home.jsx:81-118 | On a coherent state the upload prompt shows exactly when no image is held, and otherwise the preview shows the held file. The analyze button is disabled exactly while loading. The report appears exactly when the result is a non-empty text and shows that text unchanged. Scanner.jsx:60-98 is identical. |
| `ScanModel.EnabledButtonSends` | frontend/src/pages/Home.jsx:94-100 | Pressing an enabled analyze button always sends a request and then disables the button. |
| `ScanModel.AnalyzeIgnoresLoading` | frontend/src/Scanner.jsx:20-22 | While loading with an image held, the handler would still send a second request. Only the disabled button stops it. |
| `ScanModel.ReportShowsMessage` | frontend/src/pages/Home.jsx:56-57 | After a delivered non-empty message, the report card shows exactly that message. |
| `ScanModel.SettleDiffersOnlyOnErrorStatus` | frontend/src/Scanner.jsx:29-36 | The two copies settle every transport failure and every 2xx response alike. On any other status Home keeps the old result, while Scanner takes the parsed body's `message` (possibly none). |
| `ScanModel.HomeBearerIsTokenAtCallTime` | frontend/src/pages/Home.jsx:40-49 | Home's request goes to the hosted endpoint with `Bearer <stored token>`, or `Bearer null`. Scanner's request goes to the local endpoint with no Authorization header (Scanner.jsx:29-32). |
| `ScanTrace.RunStaysCoherent` | frontend/src/pages/Home.jsx:22-101 | Over any session, the preview always shows the held file and exists exactly when a file is held. |
| `ScanTrace.HeldImageIsLastPicked` | frontend/src/Scanner.jsx:11-18 | Over any session from a fresh screen, the held image is the last file chosen, or none if Cancel / Retake came after it. |
| `ScanTrace.SentRequestsCarryPickedFiles` | frontend/src/pages/Home.jsx:32-50 | Over any session from a fresh screen, every request sent has the screen's endpoint and a single `file` field holding a file the user chose. It has an Authorization header exactly on Home. |
| `ScanTrace.ResultCameFromServer` | frontend/src/pages/Home.jsx:56-57 | Over any session from a fresh screen, any result present is a `message` that some response delivered, unmodified. |
| `ScanTrace.AlertsCountFailures` | frontend/src/Scanner.jsx:38-41 | Over any session, there is exactly one alert per arrival that threw, and every alert has the screen's failure text. |
| `ScanTrace.LateResponseStillShown` | frontend/src/pages/Home.jsx:101 | A response that arrives after Cancel / Retake is still applied. The screen shows the upload prompt with no image, together with the report. |
| `Login.LoginForm.constructor` | frontend/src/pages/Login.jsx:5-7 | Email, password and error all start as the empty string. |
| `Login.LoginForm.ChangeEmail` | frontend/src/pages/Login.jsx:65 | Typing sets the email and leaves password and error alone. |
| `Login.LoginForm.ChangePassword` | frontend/src/pages/Login.jsx:76 | Typing sets the password and leaves email and error alone. |
| `Login.LoginForm.BeginLogin` | frontend/src/pages/Login.jsx:10-33 | The error is cleared first, so nothing shows. The request posts the entered email as `username` and the entered password as `password`. |
| `Login.LoginRequestFor` | frontend/src/pages/Login.jsx:20-33 | The form fields are exactly `username` = email and `password` = password, URL-encoded. The URL is the local address when built for development and the hosted one otherwise. |
| `Login.FailureText` | frontend/src/pages/Login.jsx:36 | The error text is never empty. It is the body's `detail` when that is a non-empty string, and `Login failed` when `detail` is absent or empty. |
| `Login.StoredText` | frontend/src/pages/Login.jsx:42 | The stored text is `access_token` when the body has one, and the text `undefined` when it does not. |
| `Login.Conclude` | frontend/src/pages/Login.jsx:34-49 | Sign-in happens exactly for a 2xx response whose body parses, and then stores `access_token` (or `undefined`). A parsed non-2xx body fails with its non-empty `detail`-or-fallback text. A failed `fetch` fails with its error's message, and a body that does not parse fails with the parse error's message. |
| `Login.TokenAfter` | frontend/src/pages/Login.jsx:39-45 | Storage holds the new token after a sign-in and exactly what it held before after any failure. A stored token is never removed. |
| `Login.ErrorAfterSubmit` | frontend/src/pages/Login.jsx:56 | After a submit the error paragraph shows exactly when the login failed with a non-empty message. It always shows for a rejected response with a parsed body, and never after a sign-in. |
| `Login.LoginForm.CompleteLogin` | frontend/src/pages/Login.jsx:34-49 | Storage ends as `TokenAfter` says. On failure the error is the thrown message and there is no navigation. On success the route becomes `/scan` and the error stays cleared. |
| `Login.LoginForm.HandleLogin` | frontend/src/pages/Login.jsx:10-50 | The whole handler posts the credentials as entered. Afterwards the error paragraph shows exactly when the login failed with a non-empty message, storage is as `TokenAfter` says, email and password keep their values, and navigation happens exactly on sign-in, to `/scan`. |
| `Login.RejectedLoginIsReported` | frontend/src/pages/Login.jsx:34-37 | A rejected login always leaves a visible error: the body's non-empty `detail`, or `Login failed`. Storage keeps what it held. |
| `Handoff.LoginThenScan` | frontend/src/pages/Login.jsx:42 | A login followed by Home opened on the same storage, a file chosen and analyze pressed. After a sign-in, Home stays unless the token is empty, and it sends exactly the stored text as its bearer token. After a failure, Home redirects and authorises exactly as the earlier storage dictates. |
| `Handoff.MissingTokenStoredAsUndefined` | frontend/src/pages/Login.jsx:39-45 | An example: a 2xx login body without `access_token` stores `undefined`. Home accepts that and sends `Bearer undefined`. |

## Left out

- Network I/O: `fetch` and `response.json()` are replaced by the outcome
  given to `CompleteAnalyze` and `CompleteLogin`.
- Async interleaving: each handler is split at its `await`.
- React's render scheduling is not modelled. `setX` calls take effect at
  once, which matches the order the handlers issue them in.
- `URL.createObjectURL` is modelled as an opaque handle bound to its file.
  Handles are never revoked in the code, so release is not modelled.
- `alert` is returned as text. `console.error` is left out.
- Markdown rendering, styling and icons are not part of this model. The
  report text is handed to the renderer unchanged.
- The router is left out. Navigation is a returned route. `frontend/src/App.jsx`
  is static layout and is not part of this model.
- The backend is not part of this model. That covers `backend/main.py`,
  `backend/database.py` and `backend/schemas.py`: database queries, password
  hashing, JWT, the language-model call and token expiry.
- The email input's `type="email"` and the `required` attributes are
  browser-side checks and are not modelled.
- In `Login.jsx` an unused `URLSearchParams` is built at lines 15-17. It has
  no effect and is left out.
- `ScanModel.Delivered`: the body's `message` and the login body's `detail`
  are modelled as strings or absent. A non-string JSON value is not
  modelled. For example, a validation error list would be turned into text
  by `new Error(...)` or handed as-is to the renderer.
- The error message a failed `fetch` or a `SyntaxError` carries is an input
  (`reason`, `syntaxError`). The model does not fix its text.
