/** Optional values and results, used for nullable columns and for the
    outcomes of checks that either pass a value on or raise an error. */
module Optional {

  /** A nullable value: `None` stands for Python's `None` / SQL NULL. */
  datatype Option<+T> = None | Some(value: T)

  /** The outcome of a check that returns a value or raises an error. */
  datatype Result<+T, +E> = Ok(value: T) | Err(error: E)
}
