/** Failure-carrying return types shared by the name generator's operations. */
module Results {

  /** An optional value: `None` stands for Python's missing element. */
  datatype Option<+T> = None | Some(value: T)

  /** The Python exceptions the handlers can raise. `KeyError(key)` is a dictionary
      lookup with an unknown key; `IndexError` is a list subscript past its end. */
  datatype Error = KeyError(key: string) | IndexError

  /** The outcome of a handler: its result dictionary, or the exception it raised. */
  datatype Result<+T> = Ok(value: T) | Err(error: Error)
}
