/** Optional values: the model's stand-in for TypeScript's `T | undefined` fields. */
module Optional {

  datatype Option<+T> = None | Some(value: T)
}
