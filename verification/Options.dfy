module Options {
  datatype Option<+T> = None | Some(value: T)
}

module Counting {
  /** A condition counted as one or none. */
  function B(b: bool): nat { if b then 1 else 0 }
}
