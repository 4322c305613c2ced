/** Option and Result values used for the parser's partial token conversion
    and for the errors that the program reports by panicking. */
module Results {

  datatype Option<+T> = None | Some(value: T)

  datatype Result<+T, +E> = Ok(value: T) | Err(error: E)
}
