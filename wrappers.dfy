/** Optional values, results, and the Python exception kinds that the modelled
    code raises. */
module Wrappers {

  datatype Option<+T> = None | Some(value: T)

  /** The exception a Python call raises, by kind, with its message where the
      message is part of the observable behaviour. */
  datatype Error =
    | ValueError(message: string)
    | RuntimeError(message: string)
    | TypeError(message: string)
    | IndexError
    | KeyError(key: string)

  /** A call either returns a value or raises. */
  datatype Result<+T> = Ok(value: T) | Err(error: Error)
}
