/** Result shapes shared by the other modules. */
module Wrappers {

  /** A value that may be missing. `None` stands for the double NaN that the
      source returns when it has no value to give. */
  datatype Option<+T> = None | Some(value: T)

  /** The outcome of code that indexes an array out of bounds: either the value
      it returns or the IndexOutOfRangeException the runtime throws. */
  datatype Fallible<+T> = Ok(value: T) | IndexOutOfRange
}
