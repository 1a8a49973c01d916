/** The two stock result types of the project. */
module Wrappers {

  datatype Option<+T> = None | Some(value: T)

  // A transaction either commits with a value or raises and is rolled back.
  datatype Result<+T> = Success(value: T) | Failure(error: string)
}
