/** Optional values: the model's stand-in for a pointer that may be NULL. */
module Options {

  datatype Option<+T> = None | Some(value: T)

}
