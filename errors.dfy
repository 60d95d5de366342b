/** Go's `(value, error)` returns and `errors.Wrap`, as values. */
module Errors {

  datatype Option<T> = None | Some(value: T)

  /** A Go call that returns a value or a non-nil error, the error as its message. */
  datatype Result<T> = Ok(value: T) | Err(error: string)

  /** `errors.Wrap(err, context)`: the context, a colon and the cause's message. */
  function Wrap(context: string, cause: string): string
  {
    context + ": " + cause
  }

  /** The message of `context.Canceled`. */
  const ContextCanceled: string := "context canceled"
}
