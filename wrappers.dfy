// Shared result types: the C++ code reports failures by throwing standard
// exceptions; the model returns them as values instead.
module Wrappers {

  /** The standard exception classes the backtester throws. */
  datatype Error = InvalidArgument | OutOfRange | RuntimeError

  /** A computation that either yields a value or throws `error`. */
  datatype Result<T> = Ok(value: T) | Err(error: Error)
  {
    predicate IsFailure() { Err? }

    function PropagateFailure<U>(): Result<U>
      requires Err?
    {
      Err(error)
    }

    function Extract(): T
      requires Ok?
    {
      value
    }
  }

  /** A computation with no value that either completes or throws `error`. */
  datatype Outcome = Pass | Fail(error: Error)

  datatype Option<T> = None | Some(value: T)
}

// std::abs on doubles.
module Numerics {
  function Abs(x: real): real { if x < 0.0 then -x else x }
}
