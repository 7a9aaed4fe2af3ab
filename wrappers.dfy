/** A nullable value: `None` stands for a NULL pointer or an unset boxed field. */
module Wrappers {

  datatype Option<+T> = None | Some(value: T)
}
