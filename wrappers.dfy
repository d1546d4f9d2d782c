/** Option and Result, the two failure-carrying datatypes used across the model.
    A Python function that returns None for "absent" yields an Option; one that
    raises yields a Result whose Failure names the exception. */
module Wrappers {

  datatype Option<+T> = None | Some(value: T) {
    function GetOr(default: T): T {
      match this
      case Some(v) => v
      case None => default
    }
  }

  /** The Python exception classes the modelled code raises or catches. */
  datatype Exc =
    | KeyError(key: string)
    | ValueError(msg: string)
    | TypeError(msg: string)
    | RuntimeError(msg: string)
    | AttributeError(msg: string)
    | IndexError
    | NotImplementedError(msg: string)
    | ConnectionError(msg: string)
    | HttpError(status: nat, detail: string)
    | AssertionError(msg: string)
    | Neo4jConnectionError(msg: string)
    | IntegrityError(msg: string)
    | Other(msg: string)

  /** str(e) for an exception: the message it was raised with; a KeyError
      shows its key in quotes. */
  function Message(e: Exc): string {
    match e
    case KeyError(k) => "'" + k + "'"
    case ValueError(m) => m
    case TypeError(m) => m
    case RuntimeError(m) => m
    case AttributeError(m) => m
    case IndexError => "list index out of range"
    case NotImplementedError(m) => m
    case ConnectionError(m) => m
    case HttpError(_, d) => d
    case AssertionError(m) => m
    case Neo4jConnectionError(m) => m
    case IntegrityError(m) => m
    case Other(m) => m
  }

  datatype Result<+R> = Success(value: R) | Failure(error: Exc) {
    predicate IsFailure() { Failure? }
  }
}
