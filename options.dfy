/** The optional-value type used across the model (Go's `value, ok` pairs and nil results). */
module Options {
  datatype Option<T> = None | Some(value: T)
}
