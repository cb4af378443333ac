/** Optional values, results and the absent/present marker of a JSON object key. */
module Wrappers {

  /** A value that may be missing (`null` or `undefined` in the source). */
  datatype Option<+T> = None | Some(value: T)

  /** The outcome of an operation that may fail with an error value. */
  datatype Result<+T, +E> = Ok(value: T) | Err(error: E)

  /** An object key that may be left out: `Absent` is JavaScript's `undefined`.
      For a nullable column, `Present(None)` is an explicit `null`. */
  datatype Field<+T> = Absent | Present(value: T)
}
