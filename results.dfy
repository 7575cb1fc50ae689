/** Error values for the Python exceptions the modelled code can raise. */
module Results {

  /** The one exception the core raises on its own: indexing an empty or too-short list. */
  datatype PyError = IndexError

  /** Either the value a Python call returns or the exception it raises. */
  datatype Result<+T> = Ok(value: T) | Err(error: PyError)
}
