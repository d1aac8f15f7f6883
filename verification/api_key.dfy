/** The credential checks run at the start of `analyzeFaceHealth`. */
module ApiKey {
  import opened Wrappers
  import opened Strings
  import opened Types
  import opened ServiceErrors

  const KeyPrefix: string := "AIza"
  const MinKeyLength: nat := 30

  /** `validateApiKey`: an early-return chain over emptiness, length and prefix. */
  function ValidateApiKey(key: string): (ok: bool)
    ensures ok <==> MinKeyLength <= |key| && StartsWith(key, KeyPrefix)
  {
    if key == "" then false
    else if |key| < MinKeyLength then false
    else if !StartsWith(key, KeyPrefix) then false
    else true
  }

  /** The module-level client `ai` exists exactly when the configured key is
      non-empty; constructing it does not check the key. */
  predicate ClientPresent(apiKey: string) {
    apiKey != ""
  }

  /** The ordered guards before any encoding or network step: the first
      failing guard names the error; `None` lets the pipeline continue. */
  function PreCheck(apiKey: string, file: Option<ImageFile>): (r: Option<ErrorKind>)
    ensures r == Some(ApiKeyNotSet) <==> apiKey == ""
    ensures r == Some(InvalidApiKeyFormat) <==> apiKey != "" && !ValidateApiKey(apiKey)
    ensures r == Some(NoImageFile) <==> ValidateApiKey(apiKey) && file.None?
    ensures r == None <==> ValidateApiKey(apiKey) && file.Some?
    ensures r != Some(AiClientInitFailed)
  {
    if apiKey == "" then Some(ApiKeyNotSet)
    else if !ValidateApiKey(apiKey) then Some(InvalidApiKeyFormat)
    else if !ClientPresent(apiKey) then Some(AiClientInitFailed)
    else if file.None? then Some(NoImageFile)
    else None
  }
}
