/** The `Result` shape shared by both halves of the backend: every entry point
    and every helper hands its error back as a value, never as a panic. */
module Results {

  datatype Result<+T, +E> = Ok(value: T) | Err(error: E)
}
