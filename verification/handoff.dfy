/**
 * The token is the only thing the login form and the signed-in scan screen
 * share: the form writes it into storage, and the screen reads it when it
 * mounts and again each time the analyze button is pressed.
 */
module Handoff {
  import opened Wrappers
  import opened Http
  import opened ScanModel
  import opened ScanScreen
  import opened Login

  /** A login, then the signed-in screen opened over the same storage, a
      file chosen and the analyze button pressed. After a successful login
      the screen stays (does not redirect) unless the service answered with an
      empty token, and the request carries exactly the text that was stored.
      After a failed login the screen sees whatever storage held before. */
  method LoginThenScan(form: LoginForm, outcome: LoginOutcome, f: File)
    returns (redirect: Option<string>, request: Option<Request>)
    modifies form, form.storage
    ensures form.storage.token == TokenAfter(outcome, old(form.storage.token))
    ensures Conclude(outcome).SignedIn? ==>
      (redirect.None? <==> Conclude(outcome).token != "") &&
      request == Some(Request(HomeEndpoint, Some("Bearer " + Conclude(outcome).token), [FormField(FileField, f)]))
    ensures Conclude(outcome).Failed? ==>
      redirect == MountRedirect(Home, old(form.storage.token)) &&
      request == Some(Request(HomeEndpoint, Some("Bearer " + TokenText(old(form.storage.token))), [FormField(FileField, f)]))
  {
    var _ := form.CompleteLogin(outcome);
    var screen := new Screen(Home, form.storage);
    redirect := screen.Mount();
    screen.HandleUpload(Some(f));
    request := screen.BeginAnalyze();
  }

  /** An answer without `access_token` still signs in: the text `undefined` is
      stored, the screen accepts it, and sends it as the bearer token. An
      example of `LoginThenScan`'s general statement. */
  lemma MissingTokenStoredAsUndefined(status: int, s: State)
    requires IsOk(status) && s.imageFile.Some?
    ensures Conclude(LoginOutcome.Response(status, LoginBody.Json(None, None))) == SignedIn("undefined")
    ensures MountRedirect(Home, Some("undefined")).None?
    ensures Analyze(Home, s, Some("undefined")).1.value.authorization == Some("Bearer undefined")
  {
    assert "Bearer " + "undefined" == "Bearer undefined";
  }
}
