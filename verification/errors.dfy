/** Go error values as far as their text is observable. */
module Errors {
  import opened GoText

  /**
   * An error is either a leaf message or the result of github.com/pkg/errors' Wrap,
   * which prefixes the cause's text with a context message.
   */
  datatype Error = Failure(text: Str) | Wrapped(context: Str, cause: Error)

  /** err.Error() of a pkg/errors chain: errors.Wrap(cause, context) reads "<context>: <cause>". */
  function Message(e: Error): Str {
    match e
    case Failure(t) => t
    case Wrapped(c, cause) => c + Lit(": ") + Message(cause)
  }
}
