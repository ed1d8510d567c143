/** Python's `None` and raised exceptions, as datatypes. */
module Wrappers {

  /** A value or Python's `None`. */
  datatype Option<+T> = None | Some(value: T)

  /** A normal return value, or the exception a handler raises instead. */
  datatype Result<+T, +E> = Success(value: T) | Failure(error: E)

  /** The exceptions the lookup core can raise. */
  datatype Fault =
      /** `process.extractOne` over an empty list returns `None`, and unpacking it
          as `match, score = ...` raises `TypeError`. */
    | NothingToUnpack
      /** `context.user_data[key]` on a key that was never stored raises `KeyError`. */
    | MissingUserData(key: string)
      /** rapidfuzz 1.0 and later return `(choice, score, index)`, and unpacking
          that as `match, score = ...` raises `ValueError`. */
    | TooManyValuesToUnpack
}
