/** The optional values the model uses for JavaScript's `undefined` and `null`. */
module Optional {
  datatype Option<T> = None | Some(value: T)
}
