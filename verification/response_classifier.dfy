/** Classification of the generation endpoint's answer: the HTTP status
    first, then the shape of the first candidate. */
module ResponseClassifier {
  import opened Wrappers
  import opened Strings
  import opened ServiceErrors

  datatype Part = Part(text: Option<string>)
  datatype Content = Content(parts: Option<seq<Part>>)
  datatype Candidate = Candidate(finishReason: Option<string>, content: Option<Content>)

  /** The body of a response. `Json` keeps the two things the code reads
      from it: `error.message` on a failure status and `candidates` on a
      success status (a `null` body has neither). */
  datatype ResponseBody =
    | NotJson(text: string)
    | Json(errorMessage: Option<string>, candidates: Option<seq<Candidate>>)

  datatype HttpResponse = HttpResponse(status: int, body: ResponseBody)

  /** `response.ok`. */
  predicate IsOk(status: int) {
    200 <= status <= 299
  }

  const InvalidKeyMarker: string := "API key not valid"

  /** The message the error branch inspects: `error.message` of a JSON body,
      and the raw body text when the body is not JSON. */
  function ErrorMessage(body: ResponseBody): Option<string> {
    match body
    case NotJson(text) => Some(text)
    case Json(message, _) => message
  }

  /** The status check: `None` for a success status; 400 whose message
      contains the invalid-key marker is `INVALID_API_KEY`; every other
      failure status `s` is `API_ERROR_<s>` (429 and 403 included). */
  function ClassifyStatus(response: HttpResponse): (r: Option<ErrorKind>)
    ensures r.None? <==> IsOk(response.status)
    ensures r == Some(InvalidApiKey) <==>
      response.status == 400 &&
      ErrorMessage(response.body).Some? && Contains(ErrorMessage(response.body).value, InvalidKeyMarker)
    ensures r.Some? && r != Some(InvalidApiKey) ==> r == Some(ApiError(response.status))
  {
    if IsOk(response.status) then None
    else
      var message := ErrorMessage(response.body);
      if response.status == 400 && message.Some? && Contains(message.value, InvalidKeyMarker) then
        Some(InvalidApiKey)
      else
        Some(ApiError(response.status))
  }

  /** The status check as the code is written: the fallback that reads the
      body as text runs after `response.json()` has already consumed the
      body, so `response.text()` rejects and a non-JSON failure body ends in
      a runtime error instead of `API_ERROR_<status>`. */
  function ClassifyStatusAsWritten(response: HttpResponse): (r: Option<ErrorKind>)
    ensures r.None? <==> IsOk(response.status)
    ensures !IsOk(response.status) && response.body.NotJson? ==> r == Some(Unexpected(BodyAlreadyRead))
    ensures response.body.Json? ==> r == ClassifyStatus(response)
  {
    if !IsOk(response.status) && response.body.NotJson? then Some(Unexpected(BodyAlreadyRead))
    else ClassifyStatus(response)
  }

  /** A gateway answering 502 with an HTML page: as written the caller gets
      a runtime error about a body already read; the intended behaviour
      gives `API_ERROR_502`. */
  lemma NonJsonFailureBodyExample()
    ensures var response := HttpResponse(502, NotJson("<html>Bad Gateway</html>"));
      ClassifyStatusAsWritten(response) == Some(Unexpected(BodyAlreadyRead)) &&
      ClassifyStatus(response) == Some(ApiError(502))
  {
  }

  /** Once the text fallback works, a plain-text 400 naming the invalid key
      is recognised like a JSON one. */
  lemma {:induction false} PlainTextInvalidKey(prefix: string, suffix: string)
    ensures ClassifyStatus(HttpResponse(400, NotJson(prefix + InvalidKeyMarker + suffix))) == Some(InvalidApiKey)
  {
    var text := prefix + InvalidKeyMarker + suffix;
    assert text[|prefix|..|prefix| + |InvalidKeyMarker|] == InvalidKeyMarker;
    ContainsAt(text, InvalidKeyMarker, |prefix|);
  }

  /** Whether a finish reason stops the pipeline: present, non-empty (a
      truthy string) and not "STOP". */
  predicate Interrupted(finishReason: Option<string>) {
    finishReason.Some? && finishReason.value != "" && finishReason.value != "STOP"
  }

  /** The first part of the first candidate's content, when there is one. */
  function FirstPart(candidate: Candidate): Option<Part> {
    if candidate.content.Some? && candidate.content.value.parts.Some? && |candidate.content.value.parts.value| > 0
    then Some(candidate.content.value.parts.value[0])
    else None
  }

  /** The checks on a success body, in order, ending with the trimmed text
      of the first part of the first candidate. */
  function ClassifyContent(body: ResponseBody): (r: Result<string, ErrorKind>)
    ensures r == Err(Unexpected(MalformedBody)) <==> body.NotJson?
    ensures r == Err(NoAiResponse) <==>
      body.Json? && (body.candidates.None? || |body.candidates.value| == 0)
    ensures r.Err? && r.error.AiFinishReason? ==>
      body.Json? && body.candidates.Some? && |body.candidates.value| > 0 &&
      body.candidates.value[0].finishReason == Some(r.error.reason) &&
      r.error.reason != "" && r.error.reason != "STOP"
    ensures r == Err(NoResponseContent) ==>
      body.Json? && body.candidates.Some? && |body.candidates.value| > 0 &&
      !Interrupted(body.candidates.value[0].finishReason) &&
      FirstPart(body.candidates.value[0]).None?
    ensures (body.Json? && body.candidates.Some? && |body.candidates.value| > 0 &&
             Interrupted(body.candidates.value[0].finishReason)) ==>
      r == Err(AiFinishReason(body.candidates.value[0].finishReason.value))
    ensures (body.Json? && body.candidates.Some? && |body.candidates.value| > 0 &&
             !Interrupted(body.candidates.value[0].finishReason) &&
             FirstPart(body.candidates.value[0]).None?) ==>
      r == Err(NoResponseContent)
    ensures (body.Json? && body.candidates.Some? && |body.candidates.value| > 0 &&
             !Interrupted(body.candidates.value[0].finishReason) &&
             FirstPart(body.candidates.value[0]).Some? &&
             FirstPart(body.candidates.value[0]).value.text.None?) ==>
      r == Err(Unexpected(MissingPartText))
    ensures r.Ok? <==>
      body.Json? && body.candidates.Some? && |body.candidates.value| > 0 &&
      !Interrupted(body.candidates.value[0].finishReason) &&
      FirstPart(body.candidates.value[0]).Some? &&
      FirstPart(body.candidates.value[0]).value.text.Some?
    ensures r.Ok? ==> r.value == Trim(FirstPart(body.candidates.value[0]).value.text.value)
  {
    match body
    case NotJson(_) => Err(Unexpected(MalformedBody))
    case Json(_, candidates) =>
      if candidates.None? || |candidates.value| == 0 then Err(NoAiResponse)
      else
        var candidate := candidates.value[0];
        if Interrupted(candidate.finishReason) then Err(AiFinishReason(candidate.finishReason.value))
        else match FirstPart(candidate)
          case None => Err(NoResponseContent)
          case Some(part) =>
            if part.text.None? then Err(Unexpected(MissingPartText))
            else Ok(Trim(part.text.value))
  }
}
