/** The optional value used for Kotlin's nullable types (`Int?`, `String?`). */
module Wrappers {

  datatype Option<+T> = None | Some(value: T)
}
