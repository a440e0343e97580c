/** Failure-compatible result types shared by the catalogue and the cart. */
module Wrappers {

  /** The value found by a `next(..., None)` search, or nothing. */
  datatype Option<+T> = None | Some(value: T)

  /** A successful endpoint answer, or the error body the endpoint returns instead. */
  datatype Result<+R, +E> = Success(value: R) | Failure(error: E)
}
