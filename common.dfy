/** Optional values and the success-or-failure result of a visit. */
module Common {

  datatype Option<+T> = None | Some(value: T)

  /** The `anyhow::Result` of the visitor: only "error or not" is modelled, not the message. */
  datatype Result<+T> = Ok(value: T) | Err
}
