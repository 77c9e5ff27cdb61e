/** Option and Result, used for lookups that can miss and for decoders that can fail. */
module Wrappers {

  datatype Option<+T> = None | Some(value: T)

  /** The outcome of a step that either yields a value or raises an exception carrying a message. */
  datatype Result<+R> = Success(value: R) | Failure(message: string)
}
