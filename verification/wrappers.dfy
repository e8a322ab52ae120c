/** The optional-value datatype shared by the registry and command models; it
    stands for Kotlin's nullable types (`T?`). */
module Wrappers {

  datatype Option<+T> = None | Some(value: T)
}
