/** The optional value used wherever the TypeScript source has `null` or `undefined`. */
module Options {
  datatype Option<+T> = None | Some(value: T)
}
