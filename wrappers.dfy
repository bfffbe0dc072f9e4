/** Option, Result and field-update wrappers shared by every module of the model. */
module Wrappers {

  /** A JavaScript value that may be null or undefined. */
  datatype Option<+T> = None | Some(value: T) {
    function GetOr(default: T): T {
      match this
      case Some(v) => v
      case None => default
    }
  }

  /** The outcome of an operation that can throw: a value or the thrown error. */
  datatype Result<+T, +E> = Ok(value: T) | Err(error: E)

  /** One field of a MongoDB `$set` document: left alone, or set to a value. */
  datatype Update<+T> = Keep | Put(value: T) {
    function Or(current: T): T {
      match this
      case Put(v) => v
      case Keep => current
    }
  }
}
