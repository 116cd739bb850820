/** Optional values and the exceptions the game code raises, as values. */
module Wrappers {

  datatype Option<+T> = None | Some(value: T)

  /** The Python exception classes that the modelled code raises. */
  datatype Error =
    | TypeError
    | ValueError
    | IndexError
    | KeyError
    | NotADirectoryError
    | UnboundLocalError

  /** A computation that either yields a value or raises an exception. */
  datatype Result<+T> = Ok(value: T) | Err(error: Error)
}
