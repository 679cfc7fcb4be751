/** Failure-carrying values shared by the modules of this model: a Python
    exception becomes an `Err`, a value that may be absent an `Option`. */
module Results {

  datatype Option<+T> = None | Some(value: T)

  datatype Result<+T, +E> = Ok(value: T) | Err(error: E)
}
