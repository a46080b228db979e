/** Values shared by every part of the model. */
module Common {

  /** A value that may be absent: TypeScript's `T | null`, `T | undefined` or an optional field. */
  datatype Option<+T> = None | Some(value: T)
}
