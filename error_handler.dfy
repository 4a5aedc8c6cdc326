/**
 * The application error record and the `errorHandler` classifiers of src/lib/errorHandling.ts,
 * which turn whatever was thrown into an `AppError` and an `AppError` into the sentence a user
 * is shown.
 */
module ErrorHandler {
  import opened Wrappers
  import opened Text
  import opened Thrown

  /** `{ message, code?, status? }` */
  datatype AppError = AppError(message: string, code: Option<string>, status: Option<int>)

  const UnknownErrorCode := "UNKNOWN_ERROR"
  const NetworkErrorCode := "NETWORK_ERROR"
  const AuthErrorCode := "AUTH_ERROR"
  const ValidationErrorCode := "VALIDATION_ERROR"
  const ServerErrorCode := "SERVER_ERROR"

  const UnexpectedMessage := "An unexpected error occurred"
  const NetworkMessage := "Network error: Unable to connect to server"
  const AuthFailedMessage := "Authentication failed. Please login again."

  /** `new ApiError(message, code, status)` */
  function NewApiError(message: string, code: Option<string>, status: Option<int>): (t: Thrown)
    ensures t.IsError() && t.message == message
  {
    ApiError(message, code, status)
  }

  /**
   * `errorHandler.handleApiError`: an `ApiError` keeps its code and status, any other `Error`
   * keeps only its message, and anything else becomes the generic unexpected-error record.
   */
  function HandleApiError(e: Thrown): (r: AppError)
    ensures e.IsError() ==> r.message == e.message
    ensures !e.IsError() ==> r.message == UnexpectedMessage
    ensures e.ApiError? ==> r.code == e.code && r.status == e.status
    ensures !e.ApiError? ==> r.code == Some(UnknownErrorCode) && r.status == None
  {
    match e
    case ApiError(message, code, status) => AppError(message, code, status)
    case PlainError(message) => AppError(message, Some(UnknownErrorCode), None)
    case TypeError(message) => AppError(message, Some(UnknownErrorCode), None)
    case _ => AppError(UnexpectedMessage, Some(UnknownErrorCode), None)
  }

  /** An `AppError` rethrown as an `ApiError` is classified back into the same record. */
  lemma HandleApiErrorRoundTrip(a: AppError)
    ensures HandleApiError(NewApiError(a.message, a.code, a.status)) == a
  {
  }

  /** What `fetch` rejects with when the server cannot be reached. */
  predicate IsFetchFailure(e: Thrown) {
    e.TypeError? && Contains(e.message, "fetch")
  }

  /**
   * `errorHandler.handleNetworkError`: a `TypeError` that mentions `fetch` becomes the
   * network-error record; every other value is classified as `handleApiError` does.
   */
  function HandleNetworkError(e: Thrown): (r: AppError)
    ensures IsFetchFailure(e) ==> r == AppError(NetworkMessage, Some(NetworkErrorCode), None)
    ensures !IsFetchFailure(e) ==> r == HandleApiError(e)
  {
    if e.TypeError? && Contains(e.message, "fetch") then
      AppError(NetworkMessage, Some(NetworkErrorCode), None)
    else
      HandleApiError(e)
  }

  /** A network-error code comes only from a failed fetch or from an `ApiError` that carried it. */
  lemma NetworkCodeOrigin(e: Thrown)
    ensures HandleNetworkError(e).code == Some(NetworkErrorCode) <==>
            IsFetchFailure(e) || (e.ApiError? && e.code == Some(NetworkErrorCode))
  {
  }

  /**
   * `errorHandler.handleAuthError`: a status of 401 or 403 turns the record into the
   * authentication-failure record, keeping the status; any other record is returned as is.
   */
  function HandleAuthError(e: Thrown): (r: AppError)
    ensures r.status == HandleApiError(e).status
    ensures HandleApiError(e).status in {Some(401), Some(403)} ==>
              r == AppError(AuthFailedMessage, Some(AuthErrorCode), HandleApiError(e).status)
    ensures HandleApiError(e).status !in {Some(401), Some(403)} ==> r == HandleApiError(e)
  {
    var appError := HandleApiError(e);
    if appError.status == Some(401) || appError.status == Some(403) then
      AppError(AuthFailedMessage, Some(AuthErrorCode), appError.status)
    else
      appError
  }

  /**
   * Only an `ApiError` can be classified as an authentication failure: by its 401/403 status
   * or by a code it already carried. A plain `Error`, whatever its message, never is.
   */
  lemma AuthCodeOrigin(e: Thrown)
    ensures HandleAuthError(e).code == Some(AuthErrorCode) <==>
            e.ApiError? && (e.status in {Some(401), Some(403)} || e.code == Some(AuthErrorCode))
  {
  }

  /** Classifying an authentication record again, once rethrown, changes nothing. */
  lemma HandleAuthErrorIdempotent(e: Thrown)
    ensures var a := HandleAuthError(e);
            HandleAuthError(NewApiError(a.message, a.code, a.status)) == a
  {
  }

  const NetworkUserMessage := "Unable to connect to server. Please check your internet connection."
  const AuthUserMessage := "Session expired. Please login again."
  const ValidationUserMessage := "Please check your input and try again."
  const ServerUserMessage := "Server error. Please try again later."
  const DefaultUserMessage := "Something went wrong. Please try again."

  /**
   * `errorHandler.getUserMessage`: a fixed sentence for each of the four known codes, the
   * record's own message for any other code, and a generic sentence when that message is empty.
   */
  function GetUserMessage(a: AppError): (r: string)
    ensures r != ""
    ensures a.code == Some(NetworkErrorCode) ==> r == NetworkUserMessage
    ensures a.code == Some(AuthErrorCode) ==> r == AuthUserMessage
    ensures a.code == Some(ValidationErrorCode) ==> r == ValidationUserMessage
    ensures a.code == Some(ServerErrorCode) ==> r == ServerUserMessage
    ensures a.code !in {Some(NetworkErrorCode), Some(AuthErrorCode), Some(ValidationErrorCode), Some(ServerErrorCode)} ==>
              r == (if a.message != "" then a.message else DefaultUserMessage)
  {
    match a.code
    case Some(c) =>
      if c == NetworkErrorCode then NetworkUserMessage
      else if c == AuthErrorCode then AuthUserMessage
      else if c == ValidationErrorCode then ValidationUserMessage
      else if c == ServerErrorCode then ServerUserMessage
      else if a.message != "" then a.message else DefaultUserMessage
    case None => if a.message != "" then a.message else DefaultUserMessage
  }

  /** A 401 or 403 `ApiError` always ends in the session-expired sentence. */
  lemma AuthStatusShowsSessionExpired(e: Thrown)
    requires e.ApiError? && e.status in {Some(401), Some(403)}
    ensures GetUserMessage(HandleAuthError(e)) == AuthUserMessage
  {
  }

  /** A plain `Error` is shown with its own message, or the generic sentence if that is empty. */
  lemma PlainErrorShowsOwnMessage(e: Thrown)
    requires e.PlainError? || e.TypeError?
    ensures GetUserMessage(HandleApiError(e)) == (if e.message != "" then e.message else DefaultUserMessage)
  {
  }
}
