/** The messages of the errors `analyzeFaceHealth` throws, as a datatype:
    each constructor is one message shape (`API_ERROR_<status>` carries the
    status, `AI_FINISH_REASON_<reason>` the reason). */
module ServiceErrors {

  /** Runtime exceptions the code does not raise on purpose; they reach the
      caller with whatever message the JavaScript engine gives them. */
  datatype Fault =
    | ImageReadFailed     // the FileReader rejects while encoding the image
    | NetworkFailure      // `fetch` itself rejects
    | MalformedBody       // `response.json()` rejects on a success status
    | BodyAlreadyRead     // `response.text()` after `response.json()` consumed the body
    | MissingPartText     // `parts[0].text` is undefined, so `.trim()` throws
    | NotAnObject         // the parsed value is null or a primitive

  datatype ErrorKind =
    | ApiKeyNotSet
    | InvalidApiKeyFormat
    | AiClientInitFailed
    | NoImageFile
    | InvalidApiKey
    | ApiError(status: int)
    | NoAiResponse
    | AiFinishReason(reason: string)
    | NoResponseContent
    | JsonParseError
    | NoFaceDetected
    | WrongImageType
    | Unexpected(fault: Fault)
}
