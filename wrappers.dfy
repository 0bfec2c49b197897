/**
 * Option and Result wrappers, and the Python exceptions the modelled
 * code can raise.  A `Fail` result stands for the exception escaping the
 * call; nothing in the modelled code catches one.
 */
module Wrappers {

  datatype Option<T> = None | Some(value: T)

  /** The Python exception classes the modelled code can raise. */
  datatype Error =
    | KeyError(key: string)          // missing dict key (the key is kept)
    | ValueError                     // unparsable number, bad date, shape clash
    | TypeError                      // wrong argument or operand type
    | UnboundLocalError(name: string) // a local that no branch assigned
    | NameError(name: string)        // a global that is never imported
    | AttributeError                 // attribute of None
    | IndexError                     // index past the end of a list
    | ZeroDivisionError              // Python float division by zero

  datatype Result<T> = Ok(value: T) | Fail(err: Error)
}
