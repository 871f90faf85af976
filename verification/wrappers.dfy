/** Optional values: Kotlin's nullable types (`String?`, `User?`). */
module Wrappers {

  datatype Option<+T> = None | Some(value: T)
}
