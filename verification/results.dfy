/** Failure-carrying values used across the model: an optional value, and a
    value-or-error that stands for a Python call that either returns or raises. */
module Results {

  datatype Option<+T> = None | Some(value: T)

  datatype Result<+R, +E> = Success(value: R) | Failure(error: E)
}
