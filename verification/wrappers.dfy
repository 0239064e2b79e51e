/** Optional values and the Python exceptions that the modelled scripts raise. */
module Wrappers {

  /** Python's `None` (or NaN, where a float column is left empty) versus a value. */
  datatype Option<+T> = None | Some(value: T)

  /** The exception kinds the modelled code raises, directly or through the
      standard library (an `int()` that fails, a missing dictionary key, ...). */
  datatype PyError =
    | ValueError(message: string)
    | KeyError(key: string)
    | IndexError
    | TypeError
    | NotImplementedError(message: string)
    | AssertionError
    | ZeroDivisionError
    | UnboundLocalError(name: string)
    | AttributeError(name: string)

  /** The outcome of a call that either returns a value or raises. */
  datatype Result<+T> = Ok(value: T) | Raise(error: PyError)
}
