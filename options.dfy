/** Optional values, used where the source returns None or an object. */
module Options {
  datatype Option<T> = None | Some(value: T)
}
