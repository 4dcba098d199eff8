/** Option and Result, as the other modules use them. */
module Wrappers {
  datatype Option<+T> = None | Some(value: T)

  datatype Result<+T, +E> = Success(value: T) | Failure(error: E) {
    function ToOption(): Option<T> {
      if Success? then Some(value) else None
    }
  }
}
