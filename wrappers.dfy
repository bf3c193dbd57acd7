/** Optional values and checked results, standing in for Java's null and
    for an exception thrown back to the caller. */
module Wrappers {

  datatype Option<T> = None | Some(value: T)

  /** Either a value, or the IllegalArgumentException the source throws with its message. */
  datatype Result<R> = Ok(value: R) | IllegalArgument(message: string)
}
