/** Small value types shared by the watcher model. */
module Base {

  /** An optional value: a field of a JavaScript object that may be absent. */
  datatype Option<+T> = None | Some(value: T)

  /** A positive integer, as build errors report line and column numbers. */
  type Positive = n: nat | 0 < n witness 1
}
