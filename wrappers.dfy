/** Result types shared by the model: the Python exceptions that the modelled code lets escape. */
module Wrappers {

  datatype Option<+T> = None | Some(value: T)

  /** The exceptions the modelled Python code raises to its caller. */
  datatype Error =
    | KeyError(key: string)
    | TypeError(reason: string)
    | AttributeError(attribute: string)
    | ConstructorFailed(className: string)

  /** A value, or the exception raised instead of returning it. */
  datatype Result<+T> = Ok(value: T) | Err(error: Error)

  /** A call that returns nothing, or the exception it raised. */
  datatype Outcome = Done | Raised(error: Error)
}
