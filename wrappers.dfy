/** The present/absent variant used for the rule's `Optional` fields. */
module Wrappers {

  datatype Option<+T> = None | Some(value: T)
}
