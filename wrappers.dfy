/** Presence and failure wrappers shared by every module of the model.
    `Option` stands for Python's `Optional[...]` (a value or `None`);
    `Result` stands for a computation that either returns or raises. */
module Wrappers {

  datatype Option<+T> = None | Some(value: T)

  datatype Result<+T, +E> = Ok(value: T) | Err(error: E)
}
