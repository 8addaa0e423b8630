/** The optional-value wrapper used wherever the backend returns `std::optional`. */
module Wrappers {
  datatype Option<+T> = None | Some(value: T)
}
