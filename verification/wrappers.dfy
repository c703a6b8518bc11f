/** Option and Result, the two wrappers every other module uses: Option for Java's
    nullable references and Optional, Result for an exception that escapes a call. */
module Wrappers {

  datatype Option<+T> = None | Some(value: T)

  datatype Result<+T, +E> = Ok(value: T) | Err(error: E)
}
