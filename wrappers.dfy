/** The optional-value wrapper used for Swift optionals throughout the model. */
module Wrappers {

  /** `None` stands for Swift's `nil`. */
  datatype Option<+T> = None | Some(value: T) {

    /** The wrapped value, or `default` when there is none. */
    function GetOr(default: T): T {
      match this
      case Some(v) => v
      case None => default
    }
  }
}
