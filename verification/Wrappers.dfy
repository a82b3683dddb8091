module Wrappers {
  datatype Option<+T> = None | Some(value: T)

  datatype Result<+T, +E> = Success(value: T) | Failure(error: E)

  /** An API call may fail before it takes effect, or take effect and lose its
      reply. */
  datatype Fault = Served | Rejected | ReplyLost
}
