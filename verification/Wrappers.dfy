/** Result types shared by the model. */
module Wrappers {
  datatype Option<+T> = None | Some(value: T)

  /** What a call into the program produces: a value, or the end of the calling process by exit(). */
  datatype Outcome<+T> = Returned(value: T) | Exited {
    predicate IsFailure() {
      Exited?
    }

    function PropagateFailure<U>(): Outcome<U>
      requires Exited?
    {
      Exited
    }

    function Extract(): T
      requires Returned?
    {
      value
    }
  }
}
