/** The one utility type the models share. */
module Basics {
  /** A value that may be missing: a nullable column, a dictionary lookup, an unset setting. */
  datatype Option<+T> = None | Some(value: T)
}
