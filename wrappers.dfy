/** Small value wrappers shared by every module of the model. */
module Wrappers {

  /** Python's `Optional[T]`: a value that may be `None`. Where a dictionary key may be absent as well as hold
      `None` (the workflow state), the two are kept apart by the state's own `Null` value. */
  datatype Option<+T> = None | Some(value: T) {
    function GetOr(default: T): T {
      match this
      case Some(v) => v
      case None => default
    }
  }

  /** The outcome of a call that may raise: `Failure` carries the exception's message. */
  datatype Result<+T, +E> = Success(value: T) | Failure(error: E)
}
