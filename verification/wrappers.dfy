/** The optional value used wherever the Java code may return or hold `null`. */
module Wrappers {
  datatype Option<+T> = None | Some(value: T)
}
