/**
  * The server actions: the recommendation request handler (validation of the
  * three form fields, one call of the text generator, classification of its
  * failure) and the image action, which hands the image flow's result through.
  */
module Actions {
  import opened ResortTypes
  import opened Text

  const OccasionMessage := "Occasion must be selected."
  const PreferencesMessage := "Preferences must be at least 3 characters long."
  const BudgetMessage := "Budget must be selected."
  /** The schema's message for a field that is not a string (`formData.get` gave null). */
  const NotAStringMessage := "Expected string, received null"

  const InvalidInputMessage := "Invalid input."
  const BusyMessage := "The recommendation service is currently busy. Please try again in a moment."
  const ServerIssueMessage := "Failed to generate recommendations due to a server issue. Please try again later."

  /** The three form entries as `formData.get` returns them: `None` for a missing entry. */
  datatype FormInput = FormInput(occasion: Option<string>, preferences: Option<string>, budget: Option<string>)

  /** The validated request handed to the text generator. */
  datatype RecommendationInput = RecommendationInput(occasion: string, preferences: string, budget: string)

  /** What the text generator returns on success. */
  datatype RecommendationsOutput = RecommendationsOutput(recommendations: seq<AIRecommendation>)

  /** How the awaited generator call ends: with its output, or by throwing an error with this message. */
  datatype GeneratorOutcome = Generated(output: RecommendationsOutput) | Threw(message: string)

  /** `ActionResponse`; `None` stands for an absent optional property. */
  datatype ActionResponse = ActionResponse(
    success: bool,
    data: Option<RecommendationsOutput>,
    error: Option<string>,
    fieldErrors: Option<map<string, seq<string>>>)

  /** A run of the handler: the response, and every generator call it made, in order. */
  datatype Handled = Handled(response: ActionResponse, calls: seq<RecommendationInput>)

  /**
    * The schema's check of one field, `z.string().min(minLength, message)`:
    * the message of the issue it reports, or `None` when the field passes.
    */
  function FieldIssue(value: Option<string>, minLength: nat, message: string): (issue: Option<string>)
    ensures issue.None? <==> value.Some? && |value.value| >= minLength
    ensures value.Some? && issue.Some? ==> issue.value == message
  {
    match value
    case None => Some(NotAStringMessage)
    case Some(s) => if |s| < minLength then Some(message) else None
  }

  function OccasionIssue(form: FormInput): Option<string> { FieldIssue(form.occasion, 1, OccasionMessage) }
  function PreferencesIssue(form: FormInput): Option<string> { FieldIssue(form.preferences, 3, PreferencesMessage) }
  function BudgetIssue(form: FormInput): Option<string> { FieldIssue(form.budget, 1, BudgetMessage) }

  /** `error.flatten().fieldErrors`: one entry, holding its message, per failing field. */
  function FieldErrors(form: FormInput): (errors: map<string, seq<string>>)
    ensures "occasion" in errors <==> OccasionIssue(form).Some?
    ensures "preferences" in errors <==> PreferencesIssue(form).Some?
    ensures "budget" in errors <==> BudgetIssue(form).Some?
    ensures "occasion" in errors ==> errors["occasion"] == [OccasionIssue(form).value]
    ensures "preferences" in errors ==> errors["preferences"] == [PreferencesIssue(form).value]
    ensures "budget" in errors ==> errors["budget"] == [BudgetIssue(form).value]
    ensures errors.Keys <= {"occasion", "preferences", "budget"}
  {
    var o := if OccasionIssue(form).Some? then map["occasion" := [OccasionIssue(form).value]] else map[];
    var p := if PreferencesIssue(form).Some? then map["preferences" := [PreferencesIssue(form).value]] else map[];
    var b := if BudgetIssue(form).Some? then map["budget" := [BudgetIssue(form).value]] else map[];
    o + p + b
  }

  /** `safeParse` succeeds when no field reports an issue. */
  predicate IsValid(form: FormInput)
  {
    OccasionIssue(form).None? && PreferencesIssue(form).None? && BudgetIssue(form).None?
  }

  /** A failure message that signals rate limiting (matched case-sensitively). */
  predicate IsRateLimited(message: string)
  {
    Includes(message, "rate limit") || Includes(message, "429")
  }

  /** The response for a generator call that threw. */
  function FailureResponse(message: string): (r: ActionResponse)
    ensures !r.success && r.data.None? && r.fieldErrors.None?
    ensures r.error == Some(if IsRateLimited(message) then BusyMessage else ServerIssueMessage)
  {
    if IsRateLimited(message) then ActionResponse(false, None, Some(BusyMessage), None)
    else ActionResponse(false, None, Some(ServerIssueMessage), None)
  }

  /**
    * `handleGenerateRecommendations`: `generate` is the text generator; the
    * returned `calls` lists the requests the handler made of it.
    */
  function HandleGenerateRecommendations(form: FormInput, generate: RecommendationInput -> GeneratorOutcome): (h: Handled)
    ensures !IsValid(form) ==>
              h.calls == [] &&
              h.response == ActionResponse(false, None, Some(InvalidInputMessage), Some(FieldErrors(form)))
    ensures IsValid(form) ==>
              h.calls == [RecommendationInput(form.occasion.value, form.preferences.value, form.budget.value)]
    ensures IsValid(form) && generate(h.calls[0]).Generated? ==>
              h.response == ActionResponse(true, Some(generate(h.calls[0]).output), None, None)
    ensures IsValid(form) && generate(h.calls[0]).Threw? ==>
              h.response == FailureResponse(generate(h.calls[0]).message)
    ensures h.response.success <==> IsValid(form) && generate(h.calls[0]).Generated?
  {
    if !IsValid(form) then
      Handled(ActionResponse(false, None, Some(InvalidInputMessage), Some(FieldErrors(form))), [])
    else
      var input := RecommendationInput(form.occasion.value, form.preferences.value, form.budget.value);
      match generate(input)
      case Generated(output) => Handled(ActionResponse(true, Some(output), None, None), [input])
      case Threw(message) => Handled(FailureResponse(message), [input])
  }

  /** The request fails validation exactly when some field has an entry in `fieldErrors`. */
  lemma InvalidIffFieldErrors(form: FormInput)
    ensures !IsValid(form) <==> |FieldErrors(form)| > 0
  {
    var errors := FieldErrors(form);
    if !IsValid(form) {
      if OccasionIssue(form).Some? { assert "occasion" in errors; }
      else if PreferencesIssue(form).Some? { assert "preferences" in errors; }
      else { assert "budget" in errors; }
    } else {
      assert errors.Keys == {};
    }
  }

  /** Preferences shorter than three characters always produce a preferences error and no call. */
  lemma ShortPreferencesRejected(form: FormInput, generate: RecommendationInput -> GeneratorOutcome)
    requires form.preferences.Some? && |form.preferences.value| < 3
    ensures HandleGenerateRecommendations(form, generate).calls == []
    ensures HandleGenerateRecommendations(form, generate).response.error == Some(InvalidInputMessage)
    ensures HandleGenerateRecommendations(form, generate).response.fieldErrors.Some?
    ensures "preferences" in HandleGenerateRecommendations(form, generate).response.fieldErrors.value
    ensures HandleGenerateRecommendations(form, generate).response.fieldErrors.value["preferences"] == [PreferencesMessage]
  {
  }

  /** An empty occasion or budget produces that field's "must be selected" error. */
  lemma EmptySelectionRejected(form: FormInput, generate: RecommendationInput -> GeneratorOutcome)
    requires form.occasion == Some("") || form.budget == Some("")
    ensures HandleGenerateRecommendations(form, generate).calls == []
    ensures form.occasion == Some("") ==>
              HandleGenerateRecommendations(form, generate).response.fieldErrors.value["occasion"] == [OccasionMessage]
    ensures form.budget == Some("") ==>
              HandleGenerateRecommendations(form, generate).response.fieldErrors.value["budget"] == [BudgetMessage]
  {
  }

  /**
    * The response never leaks what the generator said: two failures that are
    * classified alike give the same response, whatever their messages.
    */
  lemma FailureMessageMasked(form: FormInput, g1: RecommendationInput -> GeneratorOutcome, g2: RecommendationInput -> GeneratorOutcome)
    requires IsValid(form)
    requires var input := RecommendationInput(form.occasion.value, form.preferences.value, form.budget.value);
             g1(input).Threw? && g2(input).Threw? && IsRateLimited(g1(input).message) == IsRateLimited(g2(input).message)
    ensures HandleGenerateRecommendations(form, g1).response == HandleGenerateRecommendations(form, g2).response
    ensures HandleGenerateRecommendations(form, g1).response.error.value in {BusyMessage, ServerIssueMessage}
  {
  }

  /** A message mentioning a rate limit or status 429 anywhere is classified as busy. */
  lemma RateLimitSignals(before: string, after: string)
    ensures FailureResponse(before + "rate limit" + after).error == Some(BusyMessage)
    ensures FailureResponse(before + "429" + after).error == Some(BusyMessage)
  {
    IncludesMiddle(before, "rate limit", after);
    IncludesMiddle(before, "429", after);
  }

  /** The image flow's request and result: a data URI, or `None` (null) on any failure. */
  datatype ImageRequest = ImageRequest(prompt: string)
  datatype ImageResult = ImageResult(imageDataUri: Option<string>)

  /** `generateResortImageAction`: the flow's result, passed through unchanged. */
  function GenerateResortImageAction(input: ImageRequest, flow: ImageRequest -> ImageResult): (r: ImageResult)
    ensures r == flow(input)
  {
    flow(input)
  }
}
