/** Nullable values and fallible results, in place of the source's `null` and thrown errors. */
module Wrappers {

  /** `Some(v)` is a present value; `None` stands for TypeScript's `null` / `undefined`. */
  datatype Option<+T> = None | Some(value: T)

  /** `Success(v)` is a normal return; `Failure(e)` is a thrown error `e`. */
  datatype Result<+R, +E> = Success(value: R) | Failure(error: E)
}
