/** Failure-carrying datatypes shared by every module of the model.

    The Python code signals failure with exceptions; the model returns an
    `Err` carrying the exception class and its message instead. */
module Wrappers {

  datatype Option<+T> = None | Some(value: T) {
    function GetOr(default: T): T {
      match this
      case Some(v) => v
      case None => default
    }
  }

  /** The exception classes the modelled code raises (or lets through). */
  datatype Error =
    | KeyError(key: string)
    | ValueError(message: string)
    | TypeError(message: string)
    | AttributeError(message: string)
    | OverflowError(message: string)
    | OcrProcessingError(message: string)
    | RuntimeError(message: string)
    | HttpError(status: int, detail: string)
  {
    /** The text `str(exc)` gives for the exception. */
    function Text(): string {
      match this
      case KeyError(k) => "'" + k + "'"
      case ValueError(m) => m
      case TypeError(m) => m
      case AttributeError(m) => m
      case OverflowError(m) => m
      case OcrProcessingError(m) => m
      case RuntimeError(m) => m
      case HttpError(_, d) => d
    }
  }

  datatype Result<+T> = Ok(value: T) | Err(error: Error) {
    predicate IsFailure() { Err? }

    function PropagateFailure<U>(): Result<U>
      requires Err?
    {
      Err(error)
    }

    function Extract(): T
      requires Ok?
    {
      value
    }
  }

  /** A check that either passes or fails with an error (no value). */
  datatype Outcome = Pass | Fail(error: Error) {
    predicate IsFailure() { Fail? }

    function PropagateFailure<U>(): Result<U>
      requires Fail?
    {
      Err(error)
    }
  }
}
