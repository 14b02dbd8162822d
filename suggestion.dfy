/** The client side of the suggestion request: what `fetchExposureSuggestion`
    does with the server's reply, and how that combines with the server's
    branches for each status the client can report. */
module Suggestion {
  import opened Text
  import opened Server
  import opened Histogram

  /** What the request ended with: a parsed reply, or an exception from
      `fetch` or from reading the body as JSON. */
  datatype FetchOutcome = Received(reply: Reply) | FetchFailed

  /** What the client does in the end. */
  datatype Action =
    | Skip                    // no key configured: no request at all
    | ShowAlert(text: string) // the alert dialog with this text
    | LogStatus(message: string) // a quiet console line with the reply's message
    | LogError                // the failure is written to the console
    | Nothing

  /** A suggestion worth showing: a string that `trim()` leaves non-empty
      (`null`, a missing member and an empty string are all false). */
  predicate HasSuggestion(suggestion: Field)
    ensures HasSuggestion(suggestion) ==> suggestion.Str? && suggestion.text != []
  {
    suggestion.Str? && !IsBlank(suggestion.text)
  }

  /** `fetchExposureSuggestion` after the request: a rate-limit reply shows its
      message; otherwise a real suggestion is shown, and a status other than
      `ok` without one is only logged. */
  function SuggestionAction(hasKey: bool, outcome: FetchOutcome): (a: Action)
    ensures !hasKey <==> a == Skip
    ensures a.ShowAlert? ==>
      outcome.Received? && (outcome.reply.status == "rate_limit" || HasSuggestion(outcome.reply.suggestion))
    ensures a.LogStatus? ==> outcome.Received? && outcome.reply.status != "ok"
    ensures a == LogError <==> hasKey && outcome.FetchFailed?
  {
    if !hasKey then Skip
    else match outcome
      case FetchFailed => LogError
      case Received(reply) =>
        if reply.status == "rate_limit" then ShowAlert(reply.message)
        else if HasSuggestion(reply.suggestion) then ShowAlert(reply.suggestion.text)
        else if reply.status != "ok" then LogStatus(reply.message)
        else Nothing
  }

  /** The client's status names fall into the server's groups as intended:
      the two over statuses are the over group, the two under statuses the
      under group, `ok` neither; the outright ones are the severe ones. */
  lemma StatusGroups(st: ExposureStatus)
    ensures IsOverexposed(StatusName(st)) <==> st == Overexposed || st == SlightlyOverexposed
    ensures IsUnderexposed(StatusName(st)) <==> st == Underexposed || st == SlightlyUnderexposed
    ensures Severity(StatusName(st)) == "严重" <==> st == Overexposed || st == Underexposed
  {
  }

  /** Requests are only made for statuses other than `ok`; for each of them,
      with the key the server has: without a key nothing is sent; a failed
      call asks to retry later; an answer with text is shown; a blank answer
      is only logged, with the issue as its message. */
  lemma ClientOutcome(st: ExposureStatus, apiKey: string, ai: AiOutcome)
    requires st != Ok
    ensures var a := SuggestionAction(HasKey(apiKey), Received(Server.CheckExposure(StatusName(st), apiKey, ai)));
      && (apiKey == [] ==> a == Skip)
      && (apiKey != [] && ai.AiFailure? ==> a == ShowAlert("请稍后重试"))
      && (apiKey != [] && ai.AiSuccess? && !IsBlank(ai.text) ==> a == ShowAlert(ai.text))
      && (apiKey != [] && ai.AiSuccess? && IsBlank(ai.text) ==> a == LogStatus("曝光" + ExposureIssue(StatusName(st))))
  {
    StatusGroups(st);
    assert !IsBlank("请稍后重试") by {
      assert !IsJsWhitespace("请稍后重试"[0]);
    }
  }

  /** A rate-limited request shows the server's message. */
  lemma RateLimitShown()
    ensures SuggestionAction(true, Received(RateLimitReply())) == ShowAlert("请求频率过高")
  {
  }

  /** A normal status would never raise an alert, whatever the key and the model do. */
  lemma NormalStatusQuiet(apiKey: string, ai: AiOutcome)
    ensures !SuggestionAction(HasKey(apiKey), Received(Server.CheckExposure(StatusName(Ok), apiKey, ai))).ShowAlert?
  {
  }
}
