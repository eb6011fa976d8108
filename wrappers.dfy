/** Option and Result values, and the Python exceptions the modelled code raises. */
module Wrappers {

  datatype Option<T> = None | Some(value: T)
  {
    function UnwrapOr(default: T): (r: T)
      ensures Some? ==> r == value
      ensures None? ==> r == default
    {
      match this
      case None => default
      case Some(v) => v
    }
  }

  /** An exception raised by the modelled code, with the message the code gives it. */
  datatype Error =
    | ValueError(msg: string)
    | FileNotFoundError(msg: string)
    | IndexError(msg: string)
    | AttributeError(msg: string)
    | TypeError(msg: string)
    | UnboundLocalError(msg: string)
    | BadChangeLogFormat(msg: string)
    | GenericException(msg: string)
    | CalledProcessError(cmd: seq<string>)

  datatype Result<T> = Ok(value: T) | Err(error: Error)
}
