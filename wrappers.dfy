/** Option and Outcome: the two wrapper types the rest of the model uses.
    `Outcome` stands for a call into code outside the model (a search engine,
    a language model, a chat transport) that either returns a value or raises. */
module Wrappers {

  datatype Option<+T> = None | Some(value: T) {
    function GetOr(default: T): T {
      match this
      case Some(v) => v
      case None => default
    }

    predicate IsFailure() {
      None?
    }

    function PropagateFailure<U>(): Option<U>
      requires None?
    {
      None
    }

    function Extract(): T
      requires Some?
    {
      value
    }
  }

  /** The result of a foreign call: a value, or the text of the exception it raised. */
  datatype Outcome<+T> = Ok(value: T) | Raised(error: string)
}
