/** The two failure-compatible wrappers the model uses: `Option` stands for a
    JavaScript value that may be `null`/`undefined`, `Result` for a call that
    either returns or throws. */
module Wrappers {

  datatype Option<+T> = None | Some(value: T)

  datatype Result<+T, +E> = Success(value: T) | Failure(error: E)
}
