/** Option and Result, the failure-carrying shapes the Rust code uses
    (`Option<T>` and `anyhow::Result<T>`). */
module Results {

  datatype Option<+T> = None | Some(value: T)

  datatype Result<+T, +E> = Ok(value: T) | Err(error: E)
}
