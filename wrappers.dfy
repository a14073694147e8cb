/** Rust's `Option`, with the one combinator the builder model needs. */
module Wrappers {

  datatype Option<+T> = None | Some(value: T) {

    /** `self.or(other)`: this value when present, otherwise `other`. */
    function Or(other: Option<T>): Option<T>
    {
      if Some? then this else other
    }
  }
}
