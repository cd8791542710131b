/** The result of the source's `parseFloat`: `None` stands for NaN. */
module Wrappers {

  datatype Option<+T> = None | Some(value: T)
}
