/** Optional values and results, standing in for JavaScript's `undefined` and for
    error-first callbacks. */
module Options {

  datatype Option<+T> = None | Some(value: T)

  datatype Result<+T, +E> = Ok(value: T) | Err(error: E)

  /** JavaScript truthiness of a possibly-undefined string: neither `undefined` nor `''`. */
  predicate Truthy(s: Option<string>) {
    s.Some? && s.value != ""
  }
}
