/** The optional value that stands for Kotlin's nullable types (`Boolean?`, `String?`). */
module Wrappers {
  datatype Option<+T> = None | Some(value: T)
}
