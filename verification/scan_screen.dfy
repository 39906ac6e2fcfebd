/**
 * The scan-and-analyze screen as the object React keeps for it: four state
 * fields updated in place by the handlers. Each method is proved against the
 * handler function of the same name in `ScanModel`, and states directly what
 * it changes and what it leaves alone.
 *
 * `handleAnalyze` is asynchronous; its part before the `await` is
 * `BeginAnalyze` and its part after (the rest of `try`, `catch` and
 * `finally`) is `CompleteAnalyze`, which receives how the `fetch` ended.
 */
module ScanScreen {
  import opened Wrappers
  import opened Storage
  import opened ScanModel
  import opened Http

  class Screen {
    const variant: Variant
    /** `localStorage`, shared with the login form. */
    const storage: LocalStorage

    var imagePreview: Option<ObjectUrl>
    var imageFile: Option<File>
    var loading: bool
    var result: Option<string>

    /** The four fields as one value. */
    function Snapshot(): State
      reads this
    {
      State(imageFile, imagePreview, loading, result)
    }

    predicate Valid()
      reads this
    {
      Coherent(Snapshot())
    }

    /** What is on screen now. */
    function Shown(): View
      reads this
    {
      Render(Snapshot())
    }

    /** The four `useState` calls with their initial values. */
    constructor (variant: Variant, storage: LocalStorage)
      ensures this.variant == variant && this.storage == storage
      ensures Snapshot() == Initial() && Valid()
    {
      this.variant := variant;
      this.storage := storage;
      imagePreview := None;
      imageFile := None;
      loading := false;
      result := None;
    }

    /** The mount effect: Home reads the token and, when there is none (or it
        is empty), navigates to the login route. */
    method Mount() returns (redirect: Option<string>)
      ensures redirect.Some? <==> variant == Home && !Truthy(storage.token)
      ensures redirect.Some? ==> redirect.value == LoginRoute
    {
      redirect := None;
      if variant == Home {
        var token := storage.token;
        if !Truthy(token) {
          redirect := Some(LoginRoute);
        }
      }
    }

    /** `handleUpload`: a chosen file replaces the held one, gets a fresh
        preview and clears the old report; no file changes nothing. */
    method HandleUpload(file: Option<File>)
      requires Valid()
      modifies this
      ensures Valid()
      ensures Snapshot() == Pick(old(Snapshot()), file)
      ensures file.Some? ==> imageFile == file && imagePreview == Some(BlobUrl(file.value)) && result.None?
      ensures loading == old(loading)
      ensures file.None? ==> Snapshot() == old(Snapshot())
    {
      if file.Some? {
        imageFile := file;
        imagePreview := Some(BlobUrl(file.value));
        result := None;
      }
    }

    /** `handleAnalyze` up to the `await`: without a file it returns at once;
        with one it sets `loading`, reads the token from storage, and sends
        the file under the form field `file`. */
    method BeginAnalyze() returns (request: Option<Request>)
      requires Valid()
      modifies this
      ensures Valid()
      ensures (Snapshot(), request) == Analyze(variant, old(Snapshot()), storage.token)
      ensures old(imageFile).None? ==> request.None? && Snapshot() == old(Snapshot())
      ensures old(imageFile).Some? ==>
        loading && request == Some(RequestFor(variant, old(imageFile).value, storage.token))
      ensures imageFile == old(imageFile) && imagePreview == old(imagePreview) && result == old(result)
    {
      if imageFile.None? {
        return None;
      }
      loading := true;
      var form := [FormField(FileField, imageFile.value)];
      var token := storage.token;
      var authorization := None;
      if variant == Home {
        authorization := Some("Bearer " + TokenText(token));
      }
      request := Some(Request(Endpoint(variant), authorization, form));
    }

    /** `handleAnalyze` after the `await`. The result is set to the body's
        `message` unless the block throws first (transport failure, a body
        that does not parse, and for Home a status outside 200-299), in which
        case the failure is only alerted. `loading` is cleared either way.
        Nothing checks whether the image is still the one that was sent. */
    method CompleteAnalyze(outcome: Outcome) returns (alert: Option<string>)
      requires Valid()
      modifies this
      ensures Valid()
      ensures Snapshot() == Settle(variant, old(Snapshot()), outcome)
      ensures alert == Alert(variant, outcome)
      ensures !loading && imageFile == old(imageFile) && imagePreview == old(imagePreview)
      ensures alert.None? ==> Delivered(variant, outcome).SetResult? && result == Delivered(variant, outcome).message
      ensures alert.Some? ==> result == old(result)
      ensures alert.None? && Truthy(result) ==> Shown().report == Delivered(variant, outcome).message
      ensures Shown().card == Render(old(Snapshot()).(loading := false)).card
      ensures Shown().card.PreviewCard? ==> !Shown().card.analyzeDisabled
    {
      alert := None;
      match outcome {
        case TransportFailure =>
          alert := Some(FailureAlert(variant));
        case Response(status, body) =>
          if variant == Home && !IsOk(status) {
            alert := Some(FailureAlert(variant));
          } else {
            match body {
              case Unparsable =>
                alert := Some(FailureAlert(variant));
              case Json(message) =>
                result := message;
            }
          }
      }
      loading := false;
    }

    /** The Cancel / Retake button: preview, file and result become null. */
    method Retake()
      requires Valid()
      modifies this
      ensures Valid()
      ensures Snapshot() == ScanModel.Retake(old(Snapshot()))
      ensures imagePreview.None? && imageFile.None? && result.None?
      ensures loading == old(loading)
      ensures Shown() == View(UploadPrompt, None)
    {
      imagePreview := None;
      imageFile := None;
      result := None;
    }
  }
}
