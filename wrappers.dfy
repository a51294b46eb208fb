/** Two-armed results shared by every module: `Option` for a value that may be
    absent (JavaScript `null`/`undefined`, Kotlin `null`, Swift `nil`) and `Either`
    for the fp-ts result type the domain layer threads failures through. */
module Wrappers {

  datatype Option<+T> = None | Some(value: T)

  /** fp-ts `Either`: `Left` carries the failure, `Right` the success value. */
  datatype Either<+L, +R> = Left(left: L) | Right(right: R)

  /** The value of JavaScript's `undefined` where a promise resolves to nothing. */
  datatype Unit = Unit

  /** How a promise settles: resolved with a value, or rejected with a
      reason (an error code for the native modules). */
  datatype Outcome<+T> = Resolved(value: T) | Rejected(reason: string)
}
