/** Values shared by the block getter and the block poller: optional values,
    what a JavaScript `throw` can carry, and the outcome of an awaited call. */
module Outcomes {

  datatype Option<+T> = None | Some(value: T)

  /** A thrown value. The poller distinguishes an `Error` object, whose
      message it inspects, from anything else that was thrown. */
  datatype Thrown = ErrorObject(message: string) | NonError(value: string)

  /** The settled state of a promise: it resolved with a value or it threw. */
  datatype Result<+T> = Success(value: T) | Failure(thrown: Thrown)
}
