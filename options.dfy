/** The `T | undefined` results of the game's lookups and searches. */
module Options {
  datatype Option<T> = None | Some(value: T)
}
