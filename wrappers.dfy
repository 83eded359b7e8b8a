/** A nullable value: `None` stands for Java's `null` or for an operation that threw. */
module Wrappers {
  datatype Option<+T> = None | Some(value: T)
}
