/** Failure-carrying result types and the exceptions the modelled Python code raises. */
module Wrappers {

  datatype Option<+T> = None | Some(value: T)

  datatype Result<+R, +E> = Success(value: R) | Failure(error: E)

  /** The Python exceptions the cipher engine can raise. */
  datatype Error =
    | ValueError               // a malformed plug lead
    | KeyError(key: string)    // a rotor name missing from a name-keyed table
    | IndexError               // a position outside -26..25 in the display, or fewer
                               // selected rotors than rotor positions
    | AttributeError           // `.get` called on a list of notches
}
