/** Null references and the failure of `requireNonNull`, as values. */
module Wrappers {

  /** A Java reference that may be null: `None` stands for `null`. */
  datatype Option<+T> = None | Some(value: T)

  /** The one way a factory of this library fails: it was handed a null
      collection or argument array (`requireNonNull` throws). */
  datatype Error = NullReference

  /** Outcome of a factory call: a new tuple, or the failure and no tuple at all. */
  datatype Result<+T> = Ok(value: T) | Failure(error: Error)
}
