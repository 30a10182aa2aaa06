/** Failure-carrying values shared by every layer of the model. */
module Wrappers {

  /** Kotlin's nullable `T?`: `None` stands for `null`. */
  datatype Option<+T> = None | Some(value: T)

  /** A thrown `Exception`; only its (nullable) message is observable. */
  datatype Exception = Exception(message: Option<string>)

  /** The outcome of a suspending call that may throw. */
  datatype Attempt<+T> = Returned(value: T) | Threw(error: Exception)
}
