/** Failure-compatible datatypes shared by every module of the model. */
module Wrappers {

  /** A value that may be absent (Python's `None`, or a key missing from a dict). */
  datatype Option<T> = None | Some(value: T) {
    function GetOr(default: T): T {
      if Some? then value else default
    }
  }

  /** The Python exceptions that the modelled code can raise. */
  datatype Exception =
    | KeyError(key: string)
    | TypeError
    | ValueError
    | ZeroDivisionError
    | AttributeError(attribute: string)
      /** `ir.ERROR` of the OS0 layer, with its message and rule code ("R2", "R8", ...). */
    | IrError(message: string, code: string)

  /** The outcome of an operation that returns normally or raises. */
  datatype Result<T> = Ok(value: T) | Raise(error: Exception) {
    predicate IsFailure() {
      Raise?
    }

    function PropagateFailure<U>(): Result<U>
      requires Raise?
    {
      Raise(error)
    }

    function Extract(): T
      requires Ok?
    {
      value
    }
  }
}
