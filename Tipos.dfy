/** Small value types shared by every module of the catalogue model. */
module Tipos {

  /** A value that may be absent: Python's `None` or a present value. */
  datatype Option<+T> = None | Some(value: T)
}
