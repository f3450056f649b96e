/** Option and Result values, and the exceptions the plugin lets escape. */
module Wrappers {

  datatype Option<+T> = None | Some(value: T) {
    function GetOr(default: T): T {
      match this
      case Some(v) => v
      case None => default
    }
  }

  /** The exceptions raised by the modelled code. Python raises them; here they are values. */
  datatype Error =
    | NoneNotIterable(what: string)    // TypeError: iterating an attribute that is None
    | NoneHasNoAttribute(what: string) // AttributeError: reading an attribute of None
    | FieldNotFound                    // MiguModelException('field not found')
    | UnsupportedSearch                // MiguModelException('unsupported search')

  datatype Result<+T> = Ok(value: T) | Err(error: Error)
}
