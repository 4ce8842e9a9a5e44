/** The failure values of the modelled library: each stands for the Python exception class of that name. */
module Results {

  datatype Error = ValueError | AttributeError | IndexError | KeyError | TypeError | UnboundLocalError

  /** A value, or the exception that the Python code raises instead of returning one. */
  datatype Result<+T> = Ok(value: T) | Err(error: Error) {
    predicate IsFailure() { Err? }

    function PropagateFailure<U>(): Result<U>
      requires Err?
    {
      Err(error)
    }

    function Extract(): T
      requires Ok?
    {
      value
    }
  }

  /** Python's `None` next to a value. */
  datatype Option<+T> = None | Some(value: T)

  /** The end of a call that returns nothing: it completed, or raised the exception given. */
  datatype Outcome = Done | Failed(error: Error)
}
