/** Small result types shared by the model: an optional value, and the
    outcome of an operation that Python reports by raising an exception. */
module Wrappers {

  datatype Option<+T> = None | Some(value: T)

  /** The Python exceptions the modelled operations raise: a list index out
      of range, a missing list item, and indexing a page that is None. */
  datatype Error = IndexError | ValueError | TypeError

  datatype Result<+T> = Ok(value: T) | Err(error: Error)
}
