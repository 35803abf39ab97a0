/** Error values and the helpers of src/utils/errors.ts. */
module Errors {
  import opened Wrappers

  /** A value that JavaScript code can throw and a `catch` clause receives as `unknown`. */
  datatype Thrown =
    | ErrorObject(message: string, code: Option<string>, details: Option<Thrown>)  // an `Error` instance
    | StringThrown(text: string)                                                    // a thrown string
    | OtherThrown                                                                   // any other value

  /** How a call into code outside the model ended: with a value, or by throwing. */
  datatype Completion<T> = Returned(value: T) | Threw(error: Thrown)

  const UnknownErrorMessage := "Error desconocido"

  /** `isAppError`: the `instanceof Error` test. */
  predicate IsAppError(e: Thrown) {
    e.ErrorObject?
  }

  /** `getErrorMessage`. */
  function GetErrorMessage(e: Thrown): (m: string)
    ensures IsAppError(e) ==> m == e.message
    ensures e.StringThrown? ==> m == e.text
    ensures e.OtherThrown? ==> m == UnknownErrorMessage
  {
    match e
    case ErrorObject(message, _, _) => message
    case StringThrown(text) => text
    case OtherThrown => UnknownErrorMessage
  }

  /** `createAppError`: a fresh `Error` carrying the given message, code and details. */
  function CreateAppError(message: string, code: Option<string>, details: Option<Thrown>): (e: Thrown)
    ensures IsAppError(e)
    ensures e.message == message && e.code == code && e.details == details
  {
    ErrorObject(message, code, details)
  }

  /** The values `isAppError` accepts are exactly the ones `createAppError` can build: every
      thrown `Error` carries a message, an optional code and optional details, and nothing else passes. */
  lemma AppErrorsAreCreated(e: Thrown)
    ensures IsAppError(e) <==> exists message, code, details :: e == CreateAppError(message, code, details)
  {
    if e.ErrorObject? {
      assert e == CreateAppError(e.message, e.code, e.details);
    }
  }

  /** A plain `new Error(message)`. */
  function PlainError(message: string): Thrown {
    ErrorObject(message, None, None)
  }

  /** The message put into an error by `createAppError` is what `getErrorMessage` reads back. */
  lemma CreatedErrorMessage(message: string, code: Option<string>, details: Option<Thrown>)
    ensures GetErrorMessage(CreateAppError(message, code, details)) == message
  {
  }
}
