/** Option and Result types, and the Python exception kinds the modelled code raises. */
module Wrappers {

  datatype Option<+T> = None | Some(value: T)

  /** The exceptions raised by the modelled code, with the offending name or value. */
  datatype Error =
    | KeyError(key: string)
    | ValueError(reason: string)
    | TypeError(reason: string)
    | AttributeError(reason: string)
    | EngineError(reason: string)

  datatype Result<+T> = Success(value: T) | Failure(error: Error)

  /** The outcome of a statement run for its effect: it completed, or it raised. */
  datatype Outcome = Pass | Fail(error: Error)
}
