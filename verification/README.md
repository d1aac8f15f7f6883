# facehealth — a Dafny model of the face-analysis pipeline and its screens

The application lets a user upload a face photo, sends it to a generative
AI endpoint for a "health score" analysis, and shows the result. This
project models, in Dafny, the parts of it that decide something:

- **`analyzeFaceHealth`** (`services/geminiService.ts`), split into its
  steps: the API-key format check and the ordered key/client/file guards
  (`ApiKey`), the classification of the HTTP status and of the first
  candidate of the reply (`ResponseClassifier`), the strict parse with a
  first-`{`-to-last-`}` repair (`JsonRepair`), and the normaliser that
  gates on `isFaceDetected`, diversifies uniform scores, backfills short
  tips and fills defaults (`Normalizer`). `GeminiService` composes them.
  The parsed object is a class (`Normalizer.ParsedAnalysis`) whose fields
  are updated in place, as in the source; each step is also given as a
  function on values, and the methods are proved equal to those functions.
- **The upload guard and menu of the start screen** (`HomePage`).
- **The display helpers of the result screen** (`ResultPage`).
- **The page/loading/error state of the application shell** (`App`).
- **The switches of the sharing-settings screen** (`SharingSettings`).

Inputs from the outside world are parameters: the configured API key,
whether the FileReader could encode the image, the HTTP reply (`None` when
`fetch` rejects), `JSON.parse` as a partial function `string ->
Option<JsonValue>`, and every `Math.random()` as an integer draw
`floor(random * w)` in `[0, w)` (`Normalizer.Draws`). Errors are the
datatype `ServiceErrors.ErrorKind`, one constructor per thrown message
shape (`ApiError(status)` for `API_ERROR_<status>`, `AiFinishReason(r)`
for `AI_FINISH_REASON_<r>`, `Unexpected(fault)` for runtime exceptions).

The model follows the code, which differs from what one might expect in
these points:
- the service performs no MIME-type or size check and never raises
  `WRONG_IMAGE_TYPE` (`GeminiService.FileTypeAndSizeIgnored`,
  `GeminiService.NeverRaised`); only the start screen checks type and size;
- status 429 and 403 have no kinds of their own: with a JSON body they end
  in `API_ERROR_429` / `API_ERROR_403` (`GeminiService.FailureStatusOutcome`);
- a failure status whose body is not JSON ends in a runtime error, because
  the body is read a second time (see "## Findings"); the service model
  `GeminiService.AnalyzeFaceHealthSpec` keeps this behaviour, and
  `GeminiService.AnalyzeFaceHealthCorrected` is the same pipeline with that
  branch repaired;
- score diversification only promises the [30, 95] bound; clamping can
  leave a single distinct score (`Normalizer.DiversificationMayCollapse`);
- `AI_CLIENT_INIT_FAILED` cannot occur: the client exists whenever the
  key is non-empty, which the earlier guard already requires.

## Model

| member | source | states |
|---|---|---|
| `Strings.Trim` | services/geminiService.ts:216 | the trimmed text is a contiguous part of the reply text, everything removed before and after it is ECMAScript white space, and it neither starts nor ends with white space |
| `Strings.TrimStart` | services/geminiService.ts:216 | leading white space is removed: a suffix, all cut characters are white space, no white space at the front |
| `Strings.TrimEnd` | services/geminiService.ts:216 | trailing white space is removed: a prefix, all cut characters are white space, no white space at the end |
| `Strings.ContainsAt` | services/geminiService.ts:181 | a string holding the marker at some index `includes` it |
| `ApiKey.ValidateApiKey` | services/geminiService.ts:8-13 | a key is valid iff it has at least 30 characters and starts with "AIza" (so the empty key is invalid) |
| `ApiKey.PreCheck` | services/geminiService.ts:52-73 | the guards in order: empty key gives API_KEY_NOT_SET, else a malformed key INVALID_API_KEY_FORMAT, else a missing file NO_IMAGE_FILE; it passes iff the key is valid and a file is given; AI_CLIENT_INIT_FAILED never results |
| `ResponseClassifier.ClassifyStatus` | services/geminiService.ts:173-194 | passes iff the status is 2xx; INVALID_API_KEY iff status 400 with the invalid-key marker in the message; any other failure status s gives API_ERROR_s |
| `ResponseClassifier.ClassifyStatusAsWritten` | services/geminiService.ts:173-194 | passes iff the status is 2xx; as written, a failure status with a non-JSON body gives a runtime error (body already read) instead of API_ERROR_s; JSON bodies are classified as intended |
| `ResponseClassifier.NonJsonFailureBodyExample` | services/geminiService.ts:174-194 | a 502 with an HTML page: runtime error as written, API_ERROR_502 as intended |
| `ResponseClassifier.PlainTextInvalidKey` | services/geminiService.ts:174-184 | with the text fallback working, a plain-text 400 naming the invalid key gives INVALID_API_KEY |
| `ResponseClassifier.ClassifyContent` | services/geminiService.ts:197-216 | a body that is not JSON is a runtime error; NO_AI_RESPONSE iff no candidates; otherwise AI_FINISH_REASON_r exactly when the first candidate's reason r is non-empty and not STOP; else NO_RESPONSE_CONTENT exactly when the parts are missing or empty; else a runtime error when the first part has no text; success iff all checks pass, the result being the first part's text trimmed |
| `JsonRepair.FirstOpen` | services/geminiService.ts:223 | the index of the first `{` (or the length when there is none) |
| `JsonRepair.LastClose` | services/geminiService.ts:223 | the index of the last `}` (or -1) |
| `JsonRepair.ExtractBraces` | services/geminiService.ts:223-224 | the regular expression matches iff some `{` precedes some `}`; the match runs from the first `{` to the last `}` and starts and ends with those braces |
| `JsonRepair.ExtractBracesIsGreedy` | services/geminiService.ts:223 | the match covers every `{`…`}` pair of the text |
| `JsonRepair.ParseWithRepair` | services/geminiService.ts:218-235 | a strict parse wins; otherwise without a brace pair the result is JSON_PARSE_ERROR, with one it is the parse of exactly the extracted substring, or JSON_PARSE_ERROR; no other error |
| `JsonRepair.ExtractWrappedObject` | services/geminiService.ts:223-224 | text before the object without `{` and after it without `}` yields exactly the object |
| `JsonRepair.RepairRecoversEmbeddedObject` | services/geminiService.ts:218-226 | "garbage {…} trailing" that fails the strict parse is recovered by parsing the embedded object |
| `Normalizer.FaceGate` | services/geminiService.ts:237-246 | fails with NO_FACE_DETECTED iff the flag is an explicit false; otherwise the flag becomes true and nothing else changes |
| `Normalizer.Clamp` | services/geminiService.ts:257 | the clamp lies in [30, 95], is the identity inside and saturates outside |
| `Normalizer.DiversifyIfUniformSpec` | services/geminiService.ts:249-260 | length and categories are kept; when it fires every score is in [30, 95]; otherwise the details are unchanged |
| `Normalizer.UniformScoresTrigger` | services/geminiService.ts:250-253 | two or more details with one shared score trigger diversification |
| `Normalizer.ThreeDistinctScoresDoNotTrigger` | services/geminiService.ts:250-253 | three pairwise different scores never trigger it |
| `Normalizer.DiversificationMayCollapse` | services/geminiService.ts:253-258 | three details at 100 with the largest draw all end at 95: no more than the bound is promised |
| `Normalizer.CannedTipsAreLong` | services/geminiService.ts:266-273 | the canned table has exactly the five keys and every canned tip has at least 40 characters |
| `Normalizer.EnhanceTipsSpec` | services/geminiService.ts:263-277 | a recommendation changes iff its tip is non-empty, under 40 characters and its category is a canned key, and then takes the canned tip; length, order and categories are kept |
| `Normalizer.TipBackfillExample` | services/geminiService.ts:265-273 | a short lifestyle tip is replaced by the canned one; a short tip of an unknown category stays |
| `Normalizer.FinalizeSpec` | services/geminiService.ts:280-301 | no field ends empty or falsy; truthy fields are kept; a missing overall score is in [70, 94]; missing details become the seven categories, the k-th in its own range (75..94, 60..84, 70..89, 78..92, 65..89, 55..84, 50..74); missing recommendations become the three default tips |
| `Normalizer.FaceGatePrecedence` | services/geminiService.ts:237-246 | an explicit false flag gives NO_FACE_DETECTED however complete the payload is |
| `Normalizer.NormalizeSpecResult` | services/geminiService.ts:237-301 | success iff the parsed value is an object whose flag is not false; then details and recommendations are non-empty, summary non-empty, overall score non-zero; uniform model details come back diversified within [30, 95], other model details unchanged, defaults within [50, 94]; recommendations are the backfilled model list or the defaults |
| `Normalizer.ParsedAnalysis.constructor` | services/geminiService.ts:220 | the new object holds exactly the parsed payload |
| `Normalizer.ParsedAnalysis.ApplyFaceGate` | services/geminiService.ts:238-246 | a non-boolean flag is overwritten with true; the analysis may go on iff the flag was not false |
| `Normalizer.ParsedAnalysis.DiversifyScores` | services/geminiService.ts:249-260 | the details array afterwards is the diversified old array when it is an array, otherwise unchanged |
| `Normalizer.ParsedAnalysis.EnhanceRecommendations` | services/geminiService.ts:263-277 | an array of recommendations is replaced by its backfilled mapping |
| `Normalizer.ParsedAnalysis.Normalize` | services/geminiService.ts:237-301 | the in-place normaliser returns what the value-level normaliser gives for the old contents; on NO_FACE_DETECTED no score or tip has been touched |
| `GeminiService.AnalyzeFaceHealth` | services/geminiService.ts:49-329 | the service call equals the composed pipeline on values as written, including the runtime error for a failure status with a non-JSON body |
| `GeminiService.PreChecksComeFirst` | services/geminiService.ts:50-76 | a failing key or file guard decides the outcome whatever the encoding or the network would have answered |
| `GeminiService.FileTypeAndSizeIgnored` | services/geminiService.ts:70-76 | for the same reply, the outcome does not depend on the file's MIME type or size: the service itself checks neither |
| `GeminiService.NeverRaised` | services/geminiService.ts:65-68 | neither WRONG_IMAGE_TYPE nor AI_CLIENT_INIT_FAILED is ever the outcome |
| `GeminiService.FailureStatusOutcome` | services/geminiService.ts:173-194 | as written, a failure status with a JSON body ends in INVALID_API_KEY or API_ERROR_status, and in API_ERROR_status for every status but 400 (429 and 403 included); with a non-JSON body it ends in the body-already-read runtime error |
| `GeminiService.CorrectedFailureStatusOutcome` | services/geminiService.ts:173-194 | with the text fallback repaired, every failure status ends in INVALID_API_KEY or API_ERROR_status, whatever the body |
| `GeminiService.CorrectionOnlyAffectsNonJsonFailures` | services/geminiService.ts:173-194 | the code as written and the repaired pipeline give the same outcome iff the reply is not a failure status with a non-JSON body; there the code as written gives the runtime error |
| `GeminiService.SuccessGuarantees` | services/geminiService.ts:49-308 | success implies a valid key, a file, an encoded image, a 2xx status and a complete result (non-empty lists and summary, non-zero overall score) |
| `GeminiService.NoticeCount` | services/geminiService.ts:310-327 | with the catch's silent list extended by the six kinds that already alert where raised (AI_CLIENT_INIT_FAILED, NO_IMAGE_FILE, INVALID_API_KEY, NO_AI_RESPONSE, NO_RESPONSE_CONTENT, JSON_PARSE_ERROR), every kind but the never-raised WRONG_IMAGE_TYPE shows exactly one notice |
| `GeminiService.OneNoticePerFailure` | services/geminiService.ts:50-327 | every failure of the service call shows exactly one notice under the extended list |
| `GeminiService.DoubleNoticeAsWritten` | services/geminiService.ts:228-327 | as written, a success reply whose text holds no JSON object ends in JSON_PARSE_ERROR with two notices |
| `HomePage.CheckUpload` | pages/HomePage.tsx:32-69 | no file, then a non-image type, then over 20 MiB, then under 1 KiB, in that order; accepted iff the type starts with "image/" and 1024 ≤ size ≤ 20971520 |
| `HomePage.UploadSizeBoundaries` | pages/HomePage.tsx:57-69 | 1023 bytes refused, 1024 accepted, 20971520 accepted, 20971521 refused |
| `HomePage.MimeCheckedBeforeSize` | pages/HomePage.tsx:50-62 | a non-image is refused as such whatever its size |
| `HomePage.FileSelectEffectsSpec` | pages/HomePage.tsx:30-79 | nothing happens without a file; clearError runs first for every selected file; the analysis starts iff the file is an image of 1 KiB to 20 MiB, and with that file; the failure notice appears iff the start rejects |
| `HomePage.HomePage.constructor` | pages/HomePage.tsx:21 | the menu starts closed |
| `HomePage.HomePage.HandleFileSelect` | pages/HomePage.tsx:27-84 | runs the guard and the callbacks as specified; the input is cleared iff the file passed every check (resolved or rejected start alike) |
| `HomePage.HomePage.CameraUploadClick` | pages/HomePage.tsx:87-100 | nothing happens iff loading; the picker opens iff not loading and the input is mounted |
| `HomePage.HomePage.ToggleMenu` | pages/HomePage.tsx:103 | the menu state is negated |
| `HomePage.HomePage.CloseMenu` | pages/HomePage.tsx:104 | the menu is closed |
| `HomePage.HomePage.HandleMenuItemClick` | pages/HomePage.tsx:105-108 | the entry's action runs and the menu ends closed |
| `ResultPage.ThreeHelpersShareBands` | pages/ResultPage.tsx:43-59 | colour, background and status text each give equal values to two scores iff both are in the same band (≥80, 60..79, <60) |
| `ResultPage.DetailedStatusMonotone` | pages/ResultPage.tsx:124-132 | a higher score never gets a worse one of the seven statuses |
| `ResultPage.DetailedStatusRefinesBands` | pages/ResultPage.tsx:55-132 | ≥80 gets "매우 우수"/"우수", 60..79 "양호"/"보통", <60 one of the three lowest statuses, and conversely |
| `ResultPage.ScoreProgress` | pages/ResultPage.tsx:134-136 | the progress is in [0, 100], the identity on [0, 100], 0 below and 100 above |
| `ResultPage.ScoreProgressIdempotentMonotone` | pages/ResultPage.tsx:134-136 | the progress is idempotent and monotone |
| `ResultPage.RecommendationIconFallback` | pages/ResultPage.tsx:61-80 | the bulb icon is shown iff the category is not one of the seven listed |
| `ResultPage.CannedCategoriesIcons` | pages/ResultPage.tsx:61-80 | the service's canned categories "수분 관리" and "운동 및 마사지" get the bulb; the three default recommendations do not |
| `ResultPage.CategoryTablesFallback` | pages/ResultPage.tsx:82-122 | the chart icon and the generic description are given iff the category is not one of the seven known |
| `ResultPage.FallbackDetailsAreKnown` | pages/ResultPage.tsx:82-122 | every default detail category of the service has its own icon and description |
| `App.App.constructor` | App.tsx:13-16 | the shell starts on Home with no result, no error, not loading |
| `App.App.NavigateTo` | App.tsx:18-21 | only the page changes |
| `App.App.ClearError` | App.tsx:81-83 | only the error text changes, to none |
| `App.App.BeginAnalysis` | App.tsx:39-43 | loading on, error cleared, Analyzing shown before the service call |
| `App.App.ReceiveOutcome` | App.tsx:46-77 | a result is stored and the page stays; an error goes Home with loading off, keeping the error text for the four silent kinds and setting the generic text otherwise |
| `App.App.HandleStartAnalysis` | App.tsx:24-78 | no file: no change; success: Analyzing, loading, no error, result stored; any failure: Home, not loading, no error text for NO_FACE_DETECTED, WRONG_IMAGE_TYPE, API_KEY_NOT_SET, INVALID_API_KEY_FORMAT, the generic text for every other kind |
| `App.App.ShowResult` | App.tsx:52-55 | the delayed step shows Result with loading off |
| `App.App.RenderPage` | App.tsx:85-129 | Result without a stored result falls back to Home with the fixed error text; Home shows the current error |
| `SharingSettings.ToggleShare` | pages/SharingSettingsPage.tsx:22-27 | the given share switch is negated and the other two keep their values |
| `SharingSettings.ToggleNotification` | pages/SharingSettingsPage.tsx:29-34 | the given notification switch is negated and the other keeps its value |
| `SharingSettings.ToggleShareTwice` | pages/SharingSettingsPage.tsx:22-27 | flipping a share switch twice restores the record |
| `SharingSettings.ToggleNotificationTwice` | pages/SharingSettingsPage.tsx:29-34 | flipping a notification switch twice restores the record |
| `SharingSettings.ToggleShareCommutes` | pages/SharingSettingsPage.tsx:22-27 | flips of two share switches commute |
| `SharingSettings.SharingSettingsPage.constructor` | pages/SharingSettingsPage.tsx:11-20 | family, friends on, public off; both notifications on |
| `SharingSettings.SharingSettingsPage.HandleShareSettingChange` | pages/SharingSettingsPage.tsx:22-27 | the share record gets the flip; the notification record is untouched |
| `SharingSettings.SharingSettingsPage.HandleNotificationSettingChange` | pages/SharingSettingsPage.tsx:29-34 | the notification record gets the flip; the share record is untouched |
| `SharingSettings.SharingSettingsPage.HandleSaveSettings` | pages/SharingSettingsPage.tsx:36-41 | navigates to the sharing center and changes neither record |

## Findings

| source | as written | input that shows it | evidently intended | confidence | as-written member | corrected member |
|---|---|---|---|---|---|---|
| services/geminiService.ts:174-177 | on a failure status the fallback for a non-JSON body calls `response.text()` after `response.json()` has consumed the body, which rejects, so the caller gets a runtime error | status 502 with an HTML body | the body text is the error message and the error is `API_ERROR_502` (or `INVALID_API_KEY` for a plain-text 400 naming the key) | medium, not executed | `ResponseClassifier.ClassifyStatusAsWritten` | `ResponseClassifier.ClassifyStatus` |
| services/geminiService.ts:310-327 | the `catch` shows the generic "unexpected error" notice for every kind outside its list, including kinds that already showed their own notice where they were raised (INVALID_API_KEY, NO_AI_RESPONSE, NO_RESPONSE_CONTENT, JSON_PARSE_ERROR, NO_IMAGE_FILE) | a success reply whose text is "no json here" | one notice per error, the generic one only for errors nobody reported | medium, not executed | `GeminiService.DoubleNoticeAsWritten` | `GeminiService.NoticeCount` |

## Left out

- The image encoding (FileReader, base64, lines 29-47 of the service) is reduced to whether it succeeds; the request body, prompt, generation settings and safety settings (lines 77-171) are not modelled; the network call is its reply.
- The development-mode logging through `import.meta.env`, all `console` output and the text of every `alert`; the model keeps the thrown error kind and, for the catch block, only whether a notice is shown.
- `Math.random` is not modelled; each draw the normaliser uses is an input in the range the code implies (`Normalizer.Draws`). The draw for the analysis identifier (line 77) is not modelled: it only goes into the prompt, which is not modelled either.
- `JSON.parse` is a parameter; the parsed object keeps only the fields the code reads. Values of an unexpected JSON type (a string score, a non-string tip, a `null` list element, a `candidates` value that is not an array, an `error.message` that is not a string) are not modelled; scores are integers, where JavaScript numbers may be fractional.
- The tip table lookup `enhancedTips[category]` also finds keys inherited from `Object.prototype` (e.g. "toString"); the model's table has only its five keys.
- String lengths count Unicode code points; JavaScript counts UTF-16 units. They agree on the Korean and ASCII text involved.
- `checkApiKey` is `ApiKey.ValidateApiKey` applied to the configured key and has no member of its own.
- The `@google/genai` client is reduced to whether it exists (`ApiKey.ClientPresent`).
- The three-second `setTimeout` is the separate step `App.App.ShowResult`; the interleaving of user actions with the pending analysis or the timer is not modelled.
- `App.App.HandleStartAnalysis` takes the service's outcome as a parameter instead of calling `GeminiService.AnalyzeFaceHealth`.
- `Normalizer.ParsedAnalysis.Normalize` returns a copy of the details array; that the returned result shares the detail objects with the parsed object (aliasing) is not captured.
- The circular progress ring (floating-point geometry), the analyzing screen (interval timers and a random progress bar), the header, the sharing-center screen (fixed mock data; its colour helpers are the result screen's bands) and all JSX markup, including the `capture` attribute chosen from the user agent.
- The sharing settings are never persisted by the code; the save handler only navigates.
