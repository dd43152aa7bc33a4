/** The optional value used for Java's nullable `Double` and for the one-slot buffers. */
module Wrappers {

  datatype Option<+T> = None | Some(value: T)
}
