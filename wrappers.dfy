/** Option and Result, the two failure-carrying types the derives return. */
module Wrappers {

  datatype Option<+T> = None | Some(value: T)

  /**
   * `syn::Result` and the boxed error of the generated `build`: the error is its
   * message. Usable with `:-`, which plays the part of Rust's `?`.
   */
  datatype Result<+R> = Ok(value: R) | Err(error: string) {
    predicate IsFailure() {
      Err?
    }

    function PropagateFailure<U>(): Result<U>
      requires Err?
    {
      Err(error)
    }

    function Extract(): R
      requires Ok?
    {
      value
    }
  }
}
