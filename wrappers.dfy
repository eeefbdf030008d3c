/** The optional-value type used wherever the source has a value that may be
    absent (`null`, `undefined`, a failed lookup). */
module Wrappers {

  datatype Option<+T> = None | Some(value: T)
}
