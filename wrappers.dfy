/** Failure-carrying results: Kotlin's nullable values and thrown exceptions become values here. */
module Wrappers {

  /** A Kotlin `T?`: either null or a value. */
  datatype Option<+T> = None | Some(value: T)

  /** The outcome of a Kotlin call that may throw: a value, or the exception's message. */
  datatype Result<+T> = Ok(value: T) | Err(message: string)

  /** A Kotlin `Any?` seen from a class `C`: null, an instance of `C`, or a value of another type. */
  datatype AnyRef<+C> = Null | Instance(obj: C) | Foreign
}
