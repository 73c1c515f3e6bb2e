/** Failure-carrying values shared by the server and the client model: an
    `Option` for "maybe absent" and a `Result` for an operation that either
    yields a value or reports an error (a Go `error` return, a thrown
    TypeScript exception). */
module Results {

  datatype Option<+T> = None | Some(value: T)

  datatype Result<+T, +E> = Ok(value: T) | Err(error: E)
}
