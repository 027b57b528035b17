/** Outcomes shared by every model: the exceptions the partitioning code and the
    instance readers can raise, and the value-or-error wrappers that carry them. */
module Errors {

  /** The exceptions the modelled code raises, named after the source languages' own. */
  datatype Error =
    | IllegalArgument   // java.lang.IllegalArgumentException
    | IndexOutOfBounds  // java.lang.IndexOutOfBoundsException
    | NoSuchElement     // java.util.NoSuchElementException
    | Arithmetic        // java.lang.ArithmeticException (integer division by zero)
    | ValueError        // Python ValueError
    | AttributeError    // Python AttributeError (an attribute set on None)

  /** A computed value, or the exception that ended the computation. */
  datatype Result<+T> = Ok(value: T) | Err(error: Error)

  datatype Option<+T> = None | Some(value: T)
}
