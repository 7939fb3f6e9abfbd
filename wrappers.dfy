// Shared result types: Python's None and the exceptions the modelled code can raise.
module Wrappers {

  datatype Option<T> = None | Some(value: T)
  {
    function GetOr(default: T): (r: T)
      ensures Some? ==> r == value
      ensures None? ==> r == default
    {
      match this
      case Some(v) => v
      case None => default
    }
  }

  /** The Python exceptions that reach the modelled call sites. */
  datatype PyError =
    | KeyError
    | IndexError
    | ZeroDivisionError
    | ValueError
    | TypeError
    | AttributeError
    | LinAlgError
    | AssertionError
    | NameError

  datatype Result<T> = Ok(value: T) | Err(error: PyError)

  /** How a call that returns nothing ends: normally, or by raising. */
  datatype Outcome = Done | Raised(error: PyError)

  /** Extended reals, for the source's uses of float('inf'). */
  datatype ExtReal = Fin(r: real) | PosInf
  {
    predicate LessEq(y: real) { Fin? && r <= y }
  }
}
