/**
 * The values a `throw` or a rejected promise can carry in the dashboard, as far as its
 * error classifiers can tell them apart.
 */
module Thrown {

  import opened Wrappers

  datatype Thrown =
    /** `new Error(message)`, and any other `Error` that is neither a `TypeError` nor an `ApiError`. */
    | PlainError(message: string)
    /** A `TypeError`, which is what `fetch` throws when no response arrives. */
    | TypeError(message: string)
    /** An instance of the `ApiError` class of src/lib/errorHandling.ts (a subclass of `Error`). */
    | ApiError(message: string, code: Option<string>, status: Option<int>)
    /** A thrown string. */
    | StringValue(text: string)
    /**
     * A plain object that is not an `Error`; each field is `None` when the property is missing.
     * `statusField` is `Some` of the property's value when it is a string, and `Some("")` stands
     * for any other non-string value of the property.
     */
    | ObjectValue(statusField: Option<string>, messageField: Option<string>,
                  errors: Option<seq<string>>, statusCode: Option<int>)
    /** `null`, `undefined`, a number, a boolean, ... */
    | OtherValue
  {
    /** `value instanceof Error` */
    predicate IsError() {
      PlainError? || TypeError? || ApiError?
    }
  }

  /** `err instanceof Error ? err.message : fallback`, the message every hook stores. */
  function MessageOr(t: Thrown, fallback: string): (r: string)
    ensures t.IsError() ==> r == t.message
    ensures !t.IsError() ==> r == fallback
  {
    if t.IsError() then t.message else fallback
  }
}
