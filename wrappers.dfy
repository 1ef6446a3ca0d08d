/** Option and Result, the shapes used for optional values and for rejected inputs. */
module Wrappers {

  /** A value that may be missing (`undefined` / `null` in the source). */
  datatype Option<+T> = None | Some(value: T)

  /** The outcome of an operation that may refuse its input. */
  datatype Result<+R, +E> = Ok(value: R) | Failure(error: E)
}
