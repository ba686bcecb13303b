/** The optional value used throughout the model for Swift's `T?`. */
module Wrappers {

  datatype Option<+T> = None | Some(value: T) {

    /** `self ?? other`: the first present value of the two. */
    function OrElse(other: Option<T>): Option<T>
    {
      if Some? then this else other
    }
  }
}
