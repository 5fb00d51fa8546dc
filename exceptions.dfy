/** The Python exceptions the modelled code raises, and a result type that
    carries either a value or the exception a call would raise. */
module Exceptions {

  datatype Error =
    | ValueError
    | IndexError
    | UnboundLocalError
    | NotImplementedError

  datatype Result<+T> = Ok(value: T) | Err(error: Error)
}
