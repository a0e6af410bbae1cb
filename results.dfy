/** Failure-carrying values shared by the model: an optional value (a JSON key
    that may be missing) and the outcome of a step that can raise. */
module Results {

  datatype Option<+T> = None | Some(value: T) {
    /** Python's `dict.get(key, default)` once the lookup is done. */
    function GetOr(default: T): T {
      match this
      case Some(v) => v
      case None => default
    }
  }

  datatype Result<+T, +E> = Ok(value: T) | Err(error: E) {
    predicate IsFailure() {
      Err?
    }

    function PropagateFailure<U>(): Result<U, E>
      requires Err?
    {
      Err(error)
    }

    function Extract(): T
      requires Ok?
    {
      value
    }
  }
}
