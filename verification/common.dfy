/** Shared value wrappers: a possibly-missing value (a pandas NaN / Python None
    cell) and a computation that can fail with a message. */
module Common {

  datatype Option<+T> = None | Some(value: T)

  datatype Result<+T> = Success(value: T) | Failure(error: string)
}
