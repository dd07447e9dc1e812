/** Option and Outcome, the two failure-compatible shapes the model needs: an optional
    field of a TypeScript record (`x?: T`, `Partial<T>`) and an operation that can throw. */
module Wrappers {

  datatype Option<+T> = None | Some(value: T) {
    /** `o ?? d` */
    function GetOr(default: T): T {
      match this
      case Some(v) => v
      case None => default
    }
  }

  datatype Outcome<+E> = Pass | Fail(error: E)
}
