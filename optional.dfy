/** The optional values of the hook's signature: a TypeScript `T | undefined`. */
module Optional {

  /** `None` is `undefined`; `Some(v)` is a value that was supplied. */
  datatype Option<+T> = None | Some(value: T)
}
