/** Failure-compatible carriers used for the source's null references and thrown exceptions. */
module Wrappers {

  /** `None` stands for a null reference in the source. */
  datatype Option<+T> = None | Some(value: T)

  /** `Failure` stands for a constructor that throws instead of returning an instance. */
  datatype Result<+R, +E> = Success(value: R) | Failure(error: E)
}

/** The exceptions the runtime-model constructors throw. */
module Errors {

  /** An `ArgumentNullException` naming the offending parameter. */
  datatype ArgumentError = ArgumentNull(paramName: string)
}
