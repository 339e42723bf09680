// Option and Result: the model's rendering of Go's nil-able values and
// its (value, error) returns. Errors are the Go error message text.

module Wrappers {

  datatype Option<T> = None | Some(value: T)

  /** A Go (value, error) pair in which exactly one side is meaningful. */
  datatype Result<T> = Ok(value: T) | Err(error: string)
  {
    predicate IsFailure() { Err? }

    /** The Go `error` half of the pair: nil on success. */
    function ErrorOf(): (e: Option<string>)
      ensures e.None? <==> Ok?
    {
      match this
      case Ok(_) => None
      case Err(msg) => Some(msg)
    }
  }
}
