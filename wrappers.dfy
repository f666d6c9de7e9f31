/** Option and Result values for the model's optional columns and failing calls. */
module Wrappers {

  datatype Option<+T> = None | Some(value: T)

  /** The outcome of a call that raises instead of returning in the source. */
  datatype Result<+R, +E> = Success(value: R) | Failure(error: E)
}
