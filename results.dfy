/**
  Failure-compatible wrappers and the exceptions the modelled Python code can raise.
  A Python `raise` becomes a `Failure` carrying one of the `Exception` values below.
 */
module Results {

  datatype Option<+T> = None | Some(value: T)

  datatype Result<+R> = Success(value: R) | Failure(error: Exception) {
    predicate IsFailure() {
      Failure?
    }

    function PropagateFailure<U>(): Result<U>
      requires Failure?
    {
      Failure(error)
    }

    function Extract(): R
      requires Success?
    {
      value
    }
  }

  /** The exceptions raised by the modelled code, named as in Python. */
  datatype Exception =
    | ValueError(message: string)
      // pydantic collects the names of every field whose validator raised
    | ValidationError(fields: seq<string>)
      // `input()` on an exhausted console
    | EOFError
      // attribute access on a report key that holds `None`
    | AttributeError(message: string)
      // pandas refuses a timestamp outside its nanosecond range
    | OutOfBoundsDatetime
      // subscripting an empty list
    | IndexError(message: string)
      // whatever an opaque agent step raises
    | AgentError(node: string, message: string)
}
