/** An optional value: `None` stands for Python's `None` and JavaScript's `null`. */
module Wrappers {

  datatype Option<T> = None | Some(value: T)
}
