/** Optional values and success-or-failure outcomes shared by every module. */
module Results {

  /** A value that may be missing (`undefined`/`null` in the service). */
  datatype Option<+T> = None | Some(value: T)

  /** The outcome of an operation that may throw: the value, or what was thrown. */
  datatype Result<+T, +E> = Ok(value: T) | Err(error: E) {

    predicate IsFailure() {
      Err?
    }

    function PropagateFailure<U>(): Result<U, E>
      requires Err?
    {
      Err(error)
    }

    function Extract(): T
      requires Ok?
    {
      value
    }
  }
}
