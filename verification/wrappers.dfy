/** Failure-carrying values shared by the gateway model. A Go `error` is
    represented by its message text, which is all the handler ever uses of it. */
module Wrappers {

  /** An optional value: Go's nil-or-value results. Usable with `:-`. */
  datatype Option<+T> = None | Some(value: T) {
    predicate IsFailure() {
      None?
    }

    function PropagateFailure<U>(): Option<U>
      requires None?
    {
      None
    }

    function Extract(): T
      requires Some?
    {
      value
    }
  }

  /** A value or the text of the error that prevented it. */
  datatype Result<+T> = Ok(value: T) | Err(error: string)
}
