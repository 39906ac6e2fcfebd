/**
 * Whole sessions of the scan screen: any sequence of user actions and
 * network arrivals, fed to the handlers in order, with no check that the
 * event still makes sense (a response may arrive after Cancel / Retake, for
 * instance). The sequences include more than the page can produce: the file
 * input is rendered only while no preview shows, and the analyze and
 * Cancel / Retake buttons only while one does, but any event may follow any
 * state here. Every lemma below therefore also holds of the sessions the
 * page can actually produce.
 */
module ScanTrace {
  import opened Wrappers
  import opened ScanModel

  datatype Event =
    | Upload(file: Option<File>)          // the file input's change event
    | ClickAnalyze(stored: Option<string>) // the analyze button, with what storage holds at that moment
    | Arrive(outcome: Outcome)            // a pending fetch ends
    | ClickRetake                         // the Cancel / Retake button

  /** Where a session has got to: the screen state, every request sent so
      far and every alert raised so far, oldest first. */
  datatype Session = Session(state: State, sent: seq<Request>, alerts: seq<string>)

  function OptionSeq<T>(o: Option<T>): seq<T>
  {
    if o.Some? then [o.value] else []
  }

  /** One event, handled. */
  function Step(v: Variant, t: Session, e: Event): Session
  {
    match e
    case Upload(file) => t.(state := Pick(t.state, file))
    case ClickAnalyze(stored) =>
      var next := Analyze(v, t.state, stored);
      t.(state := next.0, sent := t.sent + OptionSeq(next.1))
    case Arrive(outcome) =>
      t.(state := Settle(v, t.state, outcome), alerts := t.alerts + OptionSeq(Alert(v, outcome)))
    case ClickRetake => t.(state := Retake(t.state))
  }

  /** The session after the events `evs`, starting from state `s`. */
  function Run(v: Variant, s: State, evs: seq<Event>): Session
  {
    if evs == [] then Session(s, [], [])
    else Step(v, Run(v, s, evs[..|evs| - 1]), evs[|evs| - 1])
  }

  /** Reference definition of the held image: the file of the last upload
      that chose one, unless a Cancel / Retake came after it. */
  function LastPicked(evs: seq<Event>): Option<File>
  {
    if evs == [] then None
    else
      match evs[|evs| - 1]
      case Upload(Some(f)) => Some(f)
      case ClickRetake => None
      case _ => LastPicked(evs[..|evs| - 1])
  }

  /** Every file the user chose during the session. */
  function Picked(evs: seq<Event>): set<File>
  {
    set i | 0 <= i < |evs| && evs[i].Upload? && evs[i].file.Some? :: evs[i].file.value
  }

  /** Every message a response handed to `setResult` during the session. */
  function DeliveredMessages(v: Variant, evs: seq<Event>): set<Option<string>>
  {
    set i | 0 <= i < |evs| && evs[i].Arrive? && Delivered(v, evs[i].outcome).SetResult? ::
      Delivered(v, evs[i].outcome).message
  }

  /** A request as the given screen sends it: to its endpoint, carrying one
      form field named `file`, with an Authorization header exactly on Home. */
  predicate WellFormed(v: Variant, r: Request)
  {
    r.url == Endpoint(v) &&
    |r.form| == 1 && r.form[0].name == FileField &&
    (r.authorization.Some? <==> v == Home)
  }

  lemma PrefixEvents(evs: seq<Event>, e: Event)
    ensures Picked(evs + [e]) == Picked(evs) + (if e.Upload? && e.file.Some? then {e.file.value} else {})
  {
    var all := evs + [e];
    assert forall i :: 0 <= i < |evs| ==> all[i] == evs[i];
    assert all[|evs|] == e;
  }

  lemma PrefixDeliveries(v: Variant, evs: seq<Event>, e: Event)
    ensures DeliveredMessages(v, evs + [e]) ==
      DeliveredMessages(v, evs) +
      (if e.Arrive? && Delivered(v, e.outcome).SetResult?
       then {Delivered(v, e.outcome).message} else {})
  {
    var all := evs + [e];
    assert forall i :: 0 <= i < |evs| ==> all[i] == evs[i];
    assert all[|evs|] == e;
  }

  /** Whatever happens, the preview shows the held file and exists exactly
      when one is held. */
  lemma {:induction false} RunStaysCoherent(v: Variant, s: State, evs: seq<Event>)
    requires Coherent(s)
    ensures Coherent(Run(v, s, evs).state)
  {
    if evs != [] {
      RunStaysCoherent(v, s, evs[..|evs| - 1]);
    }
  }

  /** From a fresh screen, the held image is always the most recently chosen
      file, or none if Cancel / Retake came after the last choice. Analyses
      and their responses never change it. */
  lemma {:induction false} HeldImageIsLastPicked(v: Variant, evs: seq<Event>)
    ensures Run(v, Initial(), evs).state.imageFile == LastPicked(evs)
  {
    if evs != [] {
      HeldImageIsLastPicked(v, evs[..|evs| - 1]);
    }
  }

  /** From a fresh screen, every request ever sent is well formed for its
      screen and carries a file the user chose during the session: the
      screen never sends without an image. */
  lemma {:induction false} SentRequestsCarryPickedFiles(v: Variant, evs: seq<Event>)
    ensures Run(v, Initial(), evs).state.imageFile.Some? ==>
      Run(v, Initial(), evs).state.imageFile.value in Picked(evs)
    ensures forall r :: r in Run(v, Initial(), evs).sent ==>
      WellFormed(v, r) && r.form[0].file in Picked(evs)
  {
    if evs != [] {
      var prefix, e := evs[..|evs| - 1], evs[|evs| - 1];
      assert evs == prefix + [e];
      SentRequestsCarryPickedFiles(v, prefix);
      PrefixEvents(prefix, e);
    }
  }

  /** From a fresh screen, any result present is a message some response
      delivered, passed on unmodified; the screen never makes one up. */
  lemma {:induction false} ResultCameFromServer(v: Variant, evs: seq<Event>)
    ensures Run(v, Initial(), evs).state.result.Some? ==>
      Run(v, Initial(), evs).state.result in DeliveredMessages(v, evs)
  {
    if evs != [] {
      var prefix, e := evs[..|evs| - 1], evs[|evs| - 1];
      assert evs == prefix + [e];
      ResultCameFromServer(v, prefix);
      PrefixDeliveries(v, prefix, e);
    }
  }

  /** Each arrival that throws raises exactly one alert, and nothing else
      does; every other arrival is silent. */
  lemma {:induction false} AlertsCountFailures(v: Variant, s: State, evs: seq<Event>)
    ensures |Run(v, s, evs).alerts| == |set i | 0 <= i < |evs| && evs[i].Arrive? && Delivered(v, evs[i].outcome).Threw?|
    ensures forall a :: a in Run(v, s, evs).alerts ==> a == FailureAlert(v)
  {
    if evs != [] {
      var prefix, e := evs[..|evs| - 1], evs[|evs| - 1];
      AlertsCountFailures(v, s, prefix);
      var before := set i | 0 <= i < |prefix| && prefix[i].Arrive? && Delivered(v, prefix[i].outcome).Threw?;
      var after := set i | 0 <= i < |evs| && evs[i].Arrive? && Delivered(v, evs[i].outcome).Threw?;
      if e.Arrive? && Delivered(v, e.outcome).Threw? {
        assert after == before + {|prefix|};
      } else {
        assert after == before;
      }
    }
  }

  /** No response is ever ignored: one that arrives after Cancel / Retake
      still sets the result, so a report appears with no image on screen. */
  lemma LateResponseStillShown(v: Variant, s: State, stored: Option<string>, m: string)
    requires s.imageFile.Some? && m != ""
    ensures var late := Run(v, s, [ClickAnalyze(stored), ClickRetake, Arrive(Response(200, Json(Some(m))))]);
      late.state.imageFile.None? &&
      Render(late.state) == View(UploadPrompt, Some(m)) &&
      |late.sent| == 1
  {
    var one := [ClickAnalyze(stored)];
    var two := one + [ClickRetake];
    var evs := two + [Arrive(Response(200, Json(Some(m))))];
    assert one[..0] == [];
    assert Run(v, s, one).sent == OptionSeq(Analyze(v, s, stored).1);
    assert two[..1] == one;
    assert evs[..2] == two;
    assert Run(v, s, two).sent == Run(v, s, one).sent;
    assert Run(v, s, evs).sent == Run(v, s, two).sent;
    assert evs == [ClickAnalyze(stored), ClickRetake, Arrive(Response(200, Json(Some(m))))];
  }
}
