/** The `attempt` wrapper of src/helpers/helpers.ts. */
module Helpers {
  import opened Wrappers
  import opened Errors

  /** The record `attempt` resolves to: `{data, error}`, with `None` for `null`. */
  datatype AttemptResult<T> = AttemptResult(data: Option<T>, error: Option<Thrown>)

  /** `attempt(fn)`, given how the single call of `fn` ended. It is total: it never throws. */
  function Attempt<T>(call: Completion<T>): (r: AttemptResult<T>)
    ensures r.data.Some? != r.error.Some?
    ensures call.Returned? ==> r.data == Some(call.value)
    ensures call.Threw? ==> r.error == Some(call.error)
  {
    match call
    case Returned(v) => AttemptResult(Some(v), None)
    case Threw(e) => AttemptResult(None, Some(e))
  }

  /** Reads a result record back as the completion it came from, when it has that shape. */
  function Replay<T>(r: AttemptResult<T>): Option<Completion<T>> {
    match r
    case AttemptResult(Some(v), None) => Some(Returned(v))
    case AttemptResult(None, Some(e)) => Some(Threw(e))
    case _ => None
  }

  /** `attempt` loses nothing: the outcome of `fn` can be read back from its result. */
  lemma AttemptIsFaithful<T>(call: Completion<T>)
    ensures Replay(Attempt(call)) == Some(call)
  {
  }
}
