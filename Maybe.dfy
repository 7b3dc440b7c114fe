/** Optional values and results, the two wrappers the rest of the model uses
    for JavaScript's `undefined` and for thrown errors. */
module Maybe {

  /** `None` stands for a missing, `undefined` or `null` value. */
  datatype Option<+T> = None | Some(value: T)

  /** `Err` stands for an exception thrown and not yet caught. */
  datatype Result<+T, +E> = Ok(value: T) | Err(error: E)
}
