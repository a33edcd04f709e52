/** Optional values: the model's stand-in for the `?:` fields and `| null` results of the source. */
module Common {
  datatype Option<+T> = None | Some(value: T)
}
