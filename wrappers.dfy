/** Success/failure values for the operations whose C or Python original
    stops with an error message (error(), raise ValueError). */
module Wrappers {

  datatype Option<+T> = None | Some(value: T)

  /** `Err` carries the diagnostic the original prints before exiting. */
  datatype Result<+T> = Ok(value: T) | Err(error: string) {
    predicate IsFailure() {
      Err?
    }

    function PropagateFailure<U>(): Result<U>
      requires Err?
    {
      Err(error)
    }

    function Extract(): T
      requires Ok?
    {
      value
    }
  }
}
