/** Option and Result wrappers, and the Python exception classes the modelled code raises. */
module Wrappers {

  /** A value that may be missing: an absent dictionary key, or Python's `None`. */
  datatype Option<+T> = None | Some(value: T) {
    /** `d.get(key, default)` for a key modelled by this option. */
    function GetOr(default: T): T {
      match this
      case Some(v) => v
      case None => default
    }
  }

  /** The exception classes that the modelled code raises or handles. */
  datatype Exception =
    | ValueError(msg: string)
    | TypeError(msg: string)
    | RuntimeError(msg: string)
    | NotImplementedError(msg: string)
    | KeyError(key: string)
    | IndexError(msg: string)
    | AttributeError(name: string)
    | AssertionError(msg: string)
    | ValidationError(field: string)
  {
    /** Python's class hierarchy: NotImplementedError derives from RuntimeError. */
    predicate IsRuntimeError() { RuntimeError? || NotImplementedError? }

    /** pydantic's ValidationError derives from ValueError. */
    predicate IsValueError() { ValueError? || ValidationError? }
  }

  /** Either a value or the exception a Python call would raise. */
  datatype Result<+T> = Ok(value: T) | Err(error: Exception) {
    predicate IsFailure() { Err? }

    function PropagateFailure<U>(): Result<U>
      requires Err?
    {
      Err(error)
    }

    function Extract(): T
      requires Ok?
    {
      value
    }
  }
}
