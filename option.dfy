/** A value that may be missing: `null`/`None` in the client and the server. */
module Optional {
  datatype Option<T> = None | Some(value: T)
}
