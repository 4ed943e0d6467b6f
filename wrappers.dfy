/** Option and Result values, and the Python exceptions the modelled code can raise. */
module Wrappers {

  datatype Option<+T> = None | Some(value: T)

  datatype Result<+R, +E> = Ok(value: R) | Err(error: E)

  /** The built-in Python exception classes that the modelled scripts raise. */
  datatype PyException =
    | IndexError      // a list index past the end
    | NameError       // a variable read before any assignment
    | ValueError      // raised explicitly by the cluster policy
    | KeyError        // a missing dictionary key
    | TypeError       // an operation applied to a value of the wrong type
    | AttributeError  // a method missing on a value of the wrong type
}
