/** The application shell: the current page, the stored analysis result,
    the error text shown on the start screen and the loading flag, driven
    by `handleStartAnalysis`. The service call is the outcome it returns
    (modelled in `GeminiService`); the three-second timer is a separate
    step, `ShowResult`. */
module App {
  import opened Wrappers
  import opened Types
  import opened ServiceErrors

  const AnalysisFailedMessage: string := "건강 상태 분석 중 오류가 발생했습니다. 다시 시도해주세요."
  const ResultMissingMessage: string := "분석 결과를 불러올 수 없습니다. 다시 시도해주세요."

  /** The four errors that send the user home without the generic error
      text (they showed their own notice already). */
  predicate ReturnsHomeSilently(e: ErrorKind) {
    e == NoFaceDetected || e == WrongImageType || e == ApiKeyNotSet || e == InvalidApiKeyFormat
  }

  /** What `renderPage` shows. */
  datatype Screen =
    | HomeScreen(error: Option<string>, loading: bool)
    | AnalyzingScreen
    | ResultScreen(result: AnalysisResult)
    | SharingCenterScreen
    | SharingSettingsScreen

  class App {
    var currentPage: Page
    var analysisResult: Option<AnalysisResult>
    var error: Option<string>
    var isLoading: bool

    constructor ()
      ensures currentPage == Home && analysisResult == None && error == None && !isLoading
    {
      currentPage := Home;
      analysisResult := None;
      error := None;
      isLoading := false;
    }

    /** `navigateTo`: only the page changes. */
    method NavigateTo(page: Page)
      modifies this`currentPage
      ensures currentPage == page
    {
      currentPage := page;
    }

    /** `clearError`: only the error text changes. */
    method ClearError()
      modifies this`error
      ensures error == None
    {
      error := None;
    }

    /** Lines 39-43: loading on, error cleared, the analyzing page shown,
        all before the service is called. */
    method BeginAnalysis()
      modifies this`isLoading, this`error, this`currentPage
      ensures isLoading && error == None && currentPage == Analyzing
    {
      isLoading := true;
      error := None;
      currentPage := Analyzing;
    }

    /** Lines 46-76 after the service answered: a result is stored (the page
        changes later, on the timer); an error sends the user home with
        loading off, and sets the generic error text unless it is one of
        the four silent kinds. */
    method ReceiveOutcome(outcome: Result<AnalysisResult, ErrorKind>)
      modifies this
      ensures outcome.Ok? ==>
        analysisResult == Some(outcome.value) &&
        currentPage == old(currentPage) && error == old(error) && isLoading == old(isLoading)
      ensures outcome.Err? ==>
        currentPage == Home && !isLoading && analysisResult == old(analysisResult) &&
        error == (if ReturnsHomeSilently(outcome.error) then old(error) else Some(AnalysisFailedMessage))
    {
      match outcome
      case Ok(result) =>
        analysisResult := Some(result);
      case Err(e) =>
        if ReturnsHomeSilently(e) {
          currentPage := Home;
          isLoading := false;
          return;
        }
        error := Some(AnalysisFailedMessage);
        currentPage := Home;
        isLoading := false;
    }

    /** `handleStartAnalysis`: with no file nothing changes; otherwise the
        analysis begins and the service's outcome is received. Every
        failure ends on the start screen, not loading; the silent kinds
        leave no error text, every other kind (`API_ERROR_*`,
        `AI_FINISH_REASON_*`, `JSON_PARSE_ERROR`, runtime faults, ...) the
        generic one. */
    method HandleStartAnalysis(file: Option<ImageFile>, outcome: Result<AnalysisResult, ErrorKind>)
      modifies this
      ensures file.None? ==>
        currentPage == old(currentPage) && analysisResult == old(analysisResult) &&
        error == old(error) && isLoading == old(isLoading)
      ensures file.Some? && outcome.Ok? ==>
        currentPage == Analyzing && isLoading && error == None && analysisResult == Some(outcome.value)
      ensures file.Some? && outcome.Err? ==>
        currentPage == Home && !isLoading && analysisResult == old(analysisResult) &&
        error == (if ReturnsHomeSilently(outcome.error) then None else Some(AnalysisFailedMessage))
    {
      if file.None? {
        return;
      }
      BeginAnalysis();
      ReceiveOutcome(outcome);
    }

    /** The timer callback three seconds after a success: the result page,
        loading off. */
    method ShowResult()
      modifies this`currentPage, this`isLoading
      ensures currentPage == Result && !isLoading
    {
      currentPage := Result;
      isLoading := false;
    }

    /** `renderPage`: the result page without a stored result falls back to
        the start screen with a fixed error text. */
    function RenderPage(): (s: Screen)
      reads this
      ensures currentPage == Result && analysisResult.None? ==>
        s == HomeScreen(Some(ResultMissingMessage), isLoading)
      ensures currentPage == Result && analysisResult.Some? ==> s == ResultScreen(analysisResult.value)
      ensures currentPage == Home ==> s == HomeScreen(error, isLoading)
    {
      match currentPage
      case Home => HomeScreen(error, isLoading)
      case Analyzing => AnalyzingScreen
      case Result =>
        if analysisResult.Some? then ResultScreen(analysisResult.value)
        else HomeScreen(Some(ResultMissingMessage), isLoading)
      case SharingCenter => SharingCenterScreen
      case SharingSettings => SharingSettingsScreen
    }
  }
}
