/** Optional values, for Go's "value, ok" results and results that may be nil. */
module Options {
  datatype Option<+T> = None | Some(value: T)
}
