/** Failure-compatible result types shared by the analyser modules. */
module Wrappers {

  datatype Option<+T> = None | Some(value: T)

  datatype Result<+T, +E> = Success(value: T) | Failure(error: E)

  /** The Python exceptions the engine raises, with their messages. */
  datatype Error = ValueError(message: string) | TypeError(message: string)
}
