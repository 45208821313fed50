/** Optional values and the outcome of a Python call that may raise. */
module Outcomes {

  datatype Option<+T> = None | Some(value: T)

  /** The Python exceptions the modelled code can raise. */
  datatype PyError =
    | AssertionError     // a failed `assert`
    | ZeroDivisionError  // `/` by a zero number
    | ValueError         // `int(...)`/`float(...)` of a malformed token, or a wrong unpacking count
    | StopIteration      // `next(...)` on an exhausted iterator
    | AttributeError     // a class attribute that is not defined

  /** Either the value a call returns or the exception it raises. */
  datatype Result<+T> = Ok(value: T) | Err(error: PyError)
}
