/**
 * `useErrorHandling` (src/lib/hooks/useErrorHandling.ts): one optional `AppError` of state,
 * set by the classifiers of the `errorHandler` and read back as a user-facing sentence.
 */
module ErrorHandlingHook {
  import opened Wrappers
  import opened Thrown
  import EH = ErrorHandler

  /** `getUserMessage()`: the empty string when there is no error, the classified sentence otherwise. */
  function UserMessageOf(error: Option<EH.AppError>): (m: string)
    ensures m == "" <==> error.None?
    ensures error.Some? ==> m == EH.GetUserMessage(error.value)
  {
    match error
    case None => ""
    case Some(e) => EH.GetUserMessage(e)
  }

  class ErrorHandling {
    var error: Option<EH.AppError>

    constructor ()
      ensures error == None
    {
      error := None;
    }

    /** `isError`: `!!error` */
    predicate IsError()
      reads this
    {
      error.Some?
    }

    method ClearError()
      modifies this
      ensures error == None
    {
      error := None;
    }

    /** `handleError`, which classifies like `handleApiError`. */
    method HandleError(err: Thrown)
      modifies this
      ensures error == Some(EH.HandleApiError(err))
    {
      error := Some(EH.HandleApiError(err));
    }

    method HandleApiError(err: Thrown)
      modifies this
      ensures error == Some(EH.HandleApiError(err))
    {
      error := Some(EH.HandleApiError(err));
    }

    method HandleNetworkError(err: Thrown)
      modifies this
      ensures error == Some(EH.HandleNetworkError(err))
    {
      error := Some(EH.HandleNetworkError(err));
    }

    method HandleAuthError(err: Thrown)
      modifies this
      ensures error == Some(EH.HandleAuthError(err))
    {
      error := Some(EH.HandleAuthError(err));
    }

    /** The sentence to show: empty exactly when no error is held. */
    method GetUserMessage() returns (m: string)
      ensures m == "" <==> !IsError()
      ensures m == UserMessageOf(error)
    {
      if error.None? {
        return "";
      }
      m := EH.GetUserMessage(error.value);
    }
  }
}
