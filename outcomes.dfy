/** Python-level outcomes shared by both benchmark scripts: an optional value,
    the exceptions the scripts can raise, and a result that is either a value or
    a raised exception (which, in both scripts, aborts the whole run). */
module Outcomes {

  datatype Option<T> = None | Some(value: T)

  /** The exceptions the modelled code can raise, named as Python names them. */
  datatype Exception =
    | KeyError(key: string)
    | ValueError(reason: string)
    | ZeroDivisionError
    | AttributeError(name: string)
    | UnboundLocalError(name: string)
    | AssertionError
    | RuntimeError(reason: string)
    | EnvironmentError(reason: string)
    | FileNotFoundError(path: string)

  datatype Result<T> = Ok(value: T) | Raised(exc: Exception)
}
