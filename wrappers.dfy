/** Failure-compatible results for the operations whose Python or JavaScript
    originals either return a value or raise an exception. */
module Wrappers {

  /** The exceptions the modelled code can raise (or, for division by a zero
      sum, the point at which numpy would silently produce nan). */
  datatype Exception =
    | IndexError         // a label that indexes outside the target vector
    | ValueError         // a reshape or a matrix product whose shapes do not fit
    | ZeroDivisionError  // a division by a count or a sum that is zero

  datatype Option<+T> = None | Some(value: T)

  datatype Result<+T> = Ok(value: T) | Err(error: Exception) {
    predicate IsFailure() { Err? }

    function PropagateFailure<U>(): Result<U>
      requires Err?
    {
      Err(error)
    }

    function Extract(): T
      requires Ok?
    {
      value
    }
  }
}
