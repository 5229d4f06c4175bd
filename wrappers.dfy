/** The optional value used by the code generator's model stack machine and evaluator. */
module Wrappers {
  datatype Option<+T> = None | Some(value: T)
}
