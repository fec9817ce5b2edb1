module Wrappers {

  /** An optional argument: `None` stands for a parameter left at its
      default of nothing. */
  datatype Option<T> = None | Some(value: T)
}
