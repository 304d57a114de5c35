/** Optional values: the model's stand-in for TypeScript's `null` and for "no value produced". */
module Options {

  datatype Option<+T> = None | Some(value: T)
}
