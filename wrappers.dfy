/** Small helper datatypes shared by the calculator modules. */
module Wrappers {

  /** A value that may be missing: JavaScript's null, undefined or NaN where the model needs to tell them apart. */
  datatype Option<+T> = None | Some(value: T)

  /** The two exceptions the legacy engine can raise while handling a key. */
  datatype JsError = TypeError | SyntaxError

  /** How an expression of the source completes: with a value, or by throwing. */
  datatype Completion<+T> = Normal(value: T) | Throw(error: JsError)
}
