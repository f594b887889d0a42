/** Option and outcome types shared by the model. */
module Wrappers {

  /** A value that may be absent: Java's `null` for map lookups and unset fields. */
  datatype Option<+T> = None | Some(value: T)

  /**
   * The result of running a section effect: either it completes with a value,
   * or the Java code throws (a null dereference, a division by zero, an index
   * out of range), which makes the parser drop the whole block.
   */
  datatype Outcome<+T> = Done(value: T) | Aborted
}
