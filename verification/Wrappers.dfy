/** The result types the stores and the engine share. */
module Wrappers {
  datatype Option<+T> = None | Some(value: T)

  datatype Result<+T, +E> = Ok(value: T) | Err(error: E) {
    predicate IsFailure() {
      Err?
    }

    function PropagateFailure<U>(): Result<U, E>
      requires Err?
    {
      Err(error)
    }

    function Extract(): T
      requires Ok?
    {
      value
    }
  }

  /** The store errors the modelled operations return. */
  datatype StoreError = UserAlreadyExists | UserNotFound | InvalidToken | TooManyRequests
}
