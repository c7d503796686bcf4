/** Rust's `Result` and `Option`: the shapes every fallible step of the runtime returns. */
module Results {

  /** `Ok` carries a value, `Err` the error that stopped the computation. */
  datatype Result<+T, +E> = Ok(value: T) | Err(error: E)

  /** `Some` carries a value; `None` says there is none. */
  datatype Option<+T> = None | Some(value: T)
}
