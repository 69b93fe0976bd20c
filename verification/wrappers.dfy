/** Failure-carrying datatypes shared by the whole model. */
module Wrappers {

  /** A value that may be absent. */
  datatype Option<+T> = None | Some(value: T)

  /** Either a value or the error that prevented computing it. */
  datatype Result<+T, +E> = Ok(value: T) | Err(error: E)
}

/** The process environment, as the program reads it through `os.environ`. */
module Environ {

  /** Variable name to value; a name that is not a key is an unset variable. */
  type Env = map<string, string>
}
