/** JavaScript's `undefined`/`null` results of a lookup (`find`, `findById`) as a value. */
module Optional {
  datatype Option<+T> = None | Some(value: T)
}
