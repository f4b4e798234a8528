/** Optional values and success-or-failure results used across the pipeline. */
module Outcomes {

  /** A value that may be absent: `re.search` finding nothing, a missing dictionary key. */
  datatype Option<+T> = None | Some(value: T)

  /** A call that either produced a value or raised an error the caller sees. */
  datatype Result<+T, +E> = Success(value: T) | Failure(error: E)

  /** What one call into a model SDK gives: the response text, or the message of the
      exception it raised. */
  datatype Outcome = Reply(text: string) | Raised(message: string)
}
