// Option and Result types shared by every module of the model.
// Go's `(T, error)` pairs become `Result<T>`; the error is the message text,
// because the controllers report errors by their formatted messages.
module Wrappers {

  datatype Option<T> = None | Some(value: T)
  {
    function UnwrapOr(default: T): T
    {
      match this
      case None => default
      case Some(v) => v
    }
  }

  datatype Result<T> = Ok(value: T) | Err(error: string)
  {
    predicate IsFailure()
    {
      Err?
    }

    function PropagateFailure<U>(): Result<U>
      requires Err?
    {
      Err(error)
    }

    function Extract(): T
      requires Ok?
    {
      value
    }
  }

  // The outcome of a Go function that returns only an `error`.
  datatype Outcome = Pass | Fail(error: string)
}
