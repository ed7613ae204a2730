/** The two failure-compatible datatypes every module shares. */
module Wrappers {
  datatype Option<+T> = None | Some(value: T)

  /** A value, or the stable code of the refusal that the program raises as an exception. */
  datatype Result<+T> = Ok(value: T) | Err(code: string) {
    predicate IsFailure() {
      Err?
    }

    function PropagateFailure<U>(): Result<U>
      requires Err?
    {
      Err(code)
    }

    function Extract(): T
      requires Ok?
    {
      value
    }
  }
}
