/** Kotlin's nullable values and `kotlin.Result`, written as values. */
module Wrappers {

  /** A Kotlin `T?`: `None` stands for `null`. */
  datatype Option<+T> = None | Some(value: T)

  /** Kotlin's elvis operator `o ?: fallback`. */
  function OrElse<T>(o: Option<T>, fallback: T): T
  {
    match o
    case Some(v) => v
    case None => fallback
  }

  /** A `kotlin.Result<T>`. A failure holds an exception, of which the code only
      ever reads `message`, which Kotlin allows to be null. */
  datatype Result<+T> = Success(value: T) | Failure(message: Option<string>)
}
