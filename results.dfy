/** The error-carrying result shared by the modules of this model: a Go pair
    `(value, error)` where exactly one side is meaningful. */
module Results {

  datatype Result<+T> = Ok(value: T) | Err(error: string)

}
