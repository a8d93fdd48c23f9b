/** Small failure-carrying datatypes shared by the other modules. */
module Wrappers {

  /** An optional value; `None` stands for a C# null reference or an absent attribute. */
  datatype Option<+T> = None | Some(value: T)

  /** The outcome of an operation that may throw: its value, or the exception it ends with. */
  datatype Result<+T, +E> = Ok(value: T) | Err(error: E)
}
