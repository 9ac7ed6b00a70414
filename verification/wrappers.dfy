/** Failure-carrying result types shared by the fitness-tracker model. */
module Wrappers {

  /** A value that may be missing, e.g. the outcome of a library parser. */
  datatype Option<+T> = None | Some(value: T)

  /** Either a computed value or the error that stopped the computation;
      stands for Go's `(value, error)` return pairs. */
  datatype Result<+T, +E> = Success(value: T) | Failure(error: E)
}
