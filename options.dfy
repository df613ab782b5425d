/** Optional values: a query parameter that may be absent, a document the store may not find. */
module Options {
  datatype Option<+T> = None | Some(value: T)
}
