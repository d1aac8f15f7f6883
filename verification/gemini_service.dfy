/** `analyzeFaceHealth`: the key and file guards, the image encoding and the
    request (as inputs), the response classification, the parse with
    repair and the normaliser, in that order; the first failing step
    decides the error. The surrounding `catch` rethrows every error
    unchanged, so the error a step raises is the error the caller sees.
    `AnalyzeFaceHealthSpec` is the code as written, including the failure
    branch that reads the body twice; `AnalyzeFaceHealthCorrected` is the
    same pipeline with that branch repaired. */
module GeminiService {
  import opened Wrappers
  import opened Types
  import opened ServiceErrors
  import opened ApiKey
  import opened ResponseClassifier
  import opened JsonRepair
  import opened Normalizer

  /** What the outside world answers during one call: whether the FileReader
      could encode the image, and the HTTP response (`None` when `fetch`
      itself rejects). */
  datatype Remote = Remote(imageReadable: bool, response: Option<HttpResponse>)

  /** The pipeline on values, as written. `parse` is `JSON.parse`. */
  function AnalyzeFaceHealthSpec(
    apiKey: string, file: Option<ImageFile>, remote: Remote,
    parse: string -> Option<JsonValue>, d: Draws): Result<AnalysisResult, ErrorKind>
    requires |d.fallback| == 7
  {
    match PreCheck(apiKey, file)
    case Some(e) => Err(e)
    case None =>
      if !remote.imageReadable then Err(Unexpected(ImageReadFailed))
      else match remote.response
        case None => Err(Unexpected(NetworkFailure))
        case Some(response) =>
          match ClassifyStatusAsWritten(response)
          case Some(e) => Err(e)
          case None =>
            match ClassifyContent(response.body)
            case Err(e) => Err(e)
            case Ok(text) =>
              match ParseWithRepair(text, parse)
              case Err(e) => Err(e)
              case Ok(v) => NormalizeSpec(v, d)
  }

  /** The pipeline with the status check repaired: a failure body that is
      not JSON is read as text, as the fallback intends. */
  function AnalyzeFaceHealthCorrected(
    apiKey: string, file: Option<ImageFile>, remote: Remote,
    parse: string -> Option<JsonValue>, d: Draws): Result<AnalysisResult, ErrorKind>
    requires |d.fallback| == 7
  {
    match PreCheck(apiKey, file)
    case Some(e) => Err(e)
    case None =>
      if !remote.imageReadable then Err(Unexpected(ImageReadFailed))
      else match remote.response
        case None => Err(Unexpected(NetworkFailure))
        case Some(response) =>
          match ClassifyStatus(response)
          case Some(e) => Err(e)
          case None =>
            match ClassifyContent(response.body)
            case Err(e) => Err(e)
            case Ok(text) =>
              match ParseWithRepair(text, parse)
              case Err(e) => Err(e)
              case Ok(v) => NormalizeSpec(v, d)
  }

  /** The service call: the parsed object is allocated and normalised in
      place. */
  method AnalyzeFaceHealth(
    apiKey: string, file: Option<ImageFile>, remote: Remote,
    parse: string -> Option<JsonValue>, d: Draws) returns (r: Result<AnalysisResult, ErrorKind>)
    requires |d.fallback| == 7
    ensures r == AnalyzeFaceHealthSpec(apiKey, file, remote, parse, d)
  {
    var guard := PreCheck(apiKey, file);
    if guard.Some? {
      return Err(guard.value);
    }
    if !remote.imageReadable {
      return Err(Unexpected(ImageReadFailed));
    }
    if remote.response.None? {
      return Err(Unexpected(NetworkFailure));
    }
    var response := remote.response.value;
    var status := ClassifyStatusAsWritten(response);
    if status.Some? {
      return Err(status.value);
    }
    var text := ClassifyContent(response.body);
    if text.Err? {
      return Err(text.error);
    }
    var parsed := ParseWithRepair(text.value, parse);
    if parsed.Err? {
      return Err(parsed.error);
    }
    match parsed.value
    case JsonObject(p) =>
      var obj := new ParsedAnalysis(p);
      r := obj.Normalize(d);
    case _ =>
      r := Err(Unexpected(NotAnObject));
  }

  /** A failed key or file guard decides the outcome before anything is
      encoded or sent, whatever the outside world would have answered. */
  lemma PreChecksComeFirst(
    apiKey: string, file: Option<ImageFile>, remote: Remote,
    parse: string -> Option<JsonValue>, d: Draws)
    requires |d.fallback| == 7
    requires PreCheck(apiKey, file).Some?
    ensures AnalyzeFaceHealthSpec(apiKey, file, remote, parse, d) == Err(PreCheck(apiKey, file).value)
  {
  }

  /** The service never looks at the file's type or size: two files lead
      to the same outcome. */
  lemma FileTypeAndSizeIgnored(
    apiKey: string, f: ImageFile, g: ImageFile, remote: Remote,
    parse: string -> Option<JsonValue>, d: Draws)
    requires |d.fallback| == 7
    ensures AnalyzeFaceHealthSpec(apiKey, Some(f), remote, parse, d) ==
            AnalyzeFaceHealthSpec(apiKey, Some(g), remote, parse, d)
  {
  }

  /** `WRONG_IMAGE_TYPE` and `AI_CLIENT_INIT_FAILED` are never the outcome:
      no step raises the first, and the client exists whenever the key
      passed the format check. */
  lemma {:induction false} NeverRaised(
    apiKey: string, file: Option<ImageFile>, remote: Remote,
    parse: string -> Option<JsonValue>, d: Draws)
    requires |d.fallback| == 7
    ensures AnalyzeFaceHealthSpec(apiKey, file, remote, parse, d) != Err(WrongImageType)
    ensures AnalyzeFaceHealthSpec(apiKey, file, remote, parse, d) != Err(AiClientInitFailed)
  {
    var r := AnalyzeFaceHealthSpec(apiKey, file, remote, parse, d);
    if PreCheck(apiKey, file).None? && remote.imageReadable && remote.response.Some? {
      var response := remote.response.value;
      if ClassifyStatusAsWritten(response).None? && ClassifyContent(response.body).Ok? {
        var parsed := ParseWithRepair(ClassifyContent(response.body).value, parse);
        if parsed.Ok? && parsed.value.JsonObject? {
          assert FaceGate(parsed.value.payload).Err? ==> r == Err(NoFaceDetected);
        }
      }
    }
  }

  /** A failure status, once the guards passed and the image was encoded:
      with a JSON body it ends in `INVALID_API_KEY` (400 with the marker)
      or `API_ERROR_<status>`, 429 and 403 included; with a body that is
      not JSON the second read of the body fails and the caller gets that
      runtime error. */
  lemma {:induction false} FailureStatusOutcome(
    apiKey: string, file: Option<ImageFile>, response: HttpResponse,
    parse: string -> Option<JsonValue>, d: Draws)
    requires |d.fallback| == 7
    requires ValidateApiKey(apiKey) && file.Some?
    requires !IsOk(response.status)
    ensures var r := AnalyzeFaceHealthSpec(apiKey, file, Remote(true, Some(response)), parse, d);
      response.body.Json? ==> r == Err(InvalidApiKey) || r == Err(ApiError(response.status))
    ensures response.body.Json? && response.status != 400 ==>
      AnalyzeFaceHealthSpec(apiKey, file, Remote(true, Some(response)), parse, d) == Err(ApiError(response.status))
    ensures response.body.NotJson? ==>
      AnalyzeFaceHealthSpec(apiKey, file, Remote(true, Some(response)), parse, d) == Err(Unexpected(BodyAlreadyRead))
  {
    assert PreCheck(apiKey, file).None?;
  }

  /** With the body fallback repaired, every failure status ends in
      `INVALID_API_KEY` or `API_ERROR_<status>`, whatever the body. */
  lemma {:induction false} CorrectedFailureStatusOutcome(
    apiKey: string, file: Option<ImageFile>, response: HttpResponse,
    parse: string -> Option<JsonValue>, d: Draws)
    requires |d.fallback| == 7
    requires ValidateApiKey(apiKey) && file.Some?
    requires !IsOk(response.status)
    ensures var r := AnalyzeFaceHealthCorrected(apiKey, file, Remote(true, Some(response)), parse, d);
      r == Err(InvalidApiKey) || r == Err(ApiError(response.status))
    ensures response.status != 400 ==>
      AnalyzeFaceHealthCorrected(apiKey, file, Remote(true, Some(response)), parse, d) == Err(ApiError(response.status))
  {
    assert PreCheck(apiKey, file).None?;
  }

  /** The code as written and the corrected pipeline differ exactly on
      replies with a failure status and a body that is not JSON, where the
      code as written gives the body-already-read runtime error. */
  lemma {:induction false} CorrectionOnlyAffectsNonJsonFailures(
    apiKey: string, file: Option<ImageFile>, remote: Remote,
    parse: string -> Option<JsonValue>, d: Draws)
    requires |d.fallback| == 7
    ensures var differs := PreCheck(apiKey, file).None? && remote.imageReadable &&
        remote.response.Some? && !IsOk(remote.response.value.status) &&
        remote.response.value.body.NotJson?;
      ((AnalyzeFaceHealthSpec(apiKey, file, remote, parse, d) ==
        AnalyzeFaceHealthCorrected(apiKey, file, remote, parse, d)) <==> !differs) &&
      (differs ==> AnalyzeFaceHealthSpec(apiKey, file, remote, parse, d) == Err(Unexpected(BodyAlreadyRead)))
  {
    if PreCheck(apiKey, file).None? && remote.imageReadable && remote.response.Some? {
      var response := remote.response.value;
      if !IsOk(response.status) && response.body.NotJson? {
        assert ClassifyStatus(response).Some? && ClassifyStatus(response).value != Unexpected(BodyAlreadyRead);
      }
    }
  }

  /** What a successful call guarantees: the key had the right format, a
      file was given, the image was encoded, the status was a success, and
      the result is complete — non-empty details and recommendations, a
      non-empty summary and a non-zero overall score. */
  lemma {:induction false} SuccessGuarantees(
    apiKey: string, file: Option<ImageFile>, remote: Remote,
    parse: string -> Option<JsonValue>, d: Draws)
    requires ValidDraws(d)
    requires AnalyzeFaceHealthSpec(apiKey, file, remote, parse, d).Ok?
    ensures ValidateApiKey(apiKey) && file.Some? && remote.imageReadable
    ensures remote.response.Some? && IsOk(remote.response.value.status)
    ensures var r := AnalyzeFaceHealthSpec(apiKey, file, remote, parse, d).value;
      |r.details| > 0 && |r.recommendations| > 0 && r.summaryText != "" && r.overallScore != 0
  {
    var response := remote.response.value;
    var text := ClassifyContent(response.body).value;
    var v := ParseWithRepair(text, parse).value;
    NormalizeSpecResult(v, d);
  }

  // ---------------------------------------------------------------------
  // Notices shown to the user on failure

  /** Whether the site that raises `e` shows its own notice before throwing:
      every kind the service throws on purpose does; `WRONG_IMAGE_TYPE` is
      never thrown and runtime faults come with no notice. */
  predicate NoticeWhereRaised(e: ErrorKind) {
    match e
    case ApiKeyNotSet => true
    case InvalidApiKeyFormat => true
    case AiClientInitFailed => true
    case NoImageFile => true
    case InvalidApiKey => true
    case ApiError(_) => true
    case NoAiResponse => true
    case AiFinishReason(_) => true
    case NoResponseContent => true
    case JsonParseError => true
    case NoFaceDetected => true
    case WrongImageType => false
    case Unexpected(_) => false
  }

  /** The kinds the `catch` block rethrows without a notice of its own, as
      written: its list names six of them. */
  predicate RethrownSilentlyAsWritten(e: ErrorKind) {
    e == NoFaceDetected || e == WrongImageType || e == ApiKeyNotSet ||
    e == InvalidApiKeyFormat || e.ApiError? || e.AiFinishReason?
  }

  /** The list its comment calls "already shown to the user": the written
      list plus the other kinds that show a notice where they are raised. */
  predicate RethrownSilently(e: ErrorKind) {
    RethrownSilentlyAsWritten(e) ||
    e == AiClientInitFailed || e == NoImageFile || e == InvalidApiKey ||
    e == NoAiResponse || e == NoResponseContent || e == JsonParseError
  }

  function NoticeCountAsWritten(e: ErrorKind): nat {
    (if NoticeWhereRaised(e) then 1 else 0) + (if RethrownSilentlyAsWritten(e) then 0 else 1)
  }

  /** With the completed list, every kind the service can raise shows
      exactly one notice; `WRONG_IMAGE_TYPE`, which it never raises
      (`NeverRaised`), would show none. */
  function NoticeCount(e: ErrorKind): (n: nat)
    ensures e != WrongImageType ==> n == 1
    ensures e == WrongImageType ==> n == 0
  {
    (if NoticeWhereRaised(e) then 1 else 0) + (if RethrownSilently(e) then 0 else 1)
  }

  /** Every failure of the service call shows exactly one notice under the
      completed list. */
  lemma {:induction false} OneNoticePerFailure(
    apiKey: string, file: Option<ImageFile>, remote: Remote,
    parse: string -> Option<JsonValue>, d: Draws)
    requires |d.fallback| == 7
    requires AnalyzeFaceHealthSpec(apiKey, file, remote, parse, d).Err?
    ensures NoticeCount(AnalyzeFaceHealthSpec(apiKey, file, remote, parse, d).error) == 1
  {
    NeverRaised(apiKey, file, remote, parse, d);
  }

  /** As written, a success reply whose text holds no JSON object (say
      "no json here") shows two notices: the format notice where
      `JSON_PARSE_ERROR` is raised, then the generic "unexpected error"
      notice in the `catch`; corrected, it shows one. */
  lemma DoubleNoticeAsWritten(
    apiKey: string, file: Option<ImageFile>, response: HttpResponse,
    parse: string -> Option<JsonValue>, d: Draws)
    requires |d.fallback| == 7
    requires ValidateApiKey(apiKey) && file.Some? && IsOk(response.status)
    requires ClassifyContent(response.body).Ok?
    requires var text := ClassifyContent(response.body).value;
      parse(text).None? && !HasBracePair(text)
    ensures AnalyzeFaceHealthSpec(apiKey, file, Remote(true, Some(response)), parse, d) == Err(JsonParseError)
    ensures NoticeCountAsWritten(JsonParseError) == 2
    ensures NoticeCount(JsonParseError) == 1
  {
    assert PreCheck(apiKey, file).None?;
  }
}
