/**
 * The exceptions the modelled code raises: the classes of autorobot/errors.py and the
 * Python built-in exceptions that escape from the core, as one error datatype, plus the
 * Result and Option wrappers every fallible operation of the model returns.
 */
module Errors {

  datatype Error =
    | InitError                       // AutoRobotInitError: the module was not initialized
    | ProjError                       // AutoRobotProjError: creating a new project failed
    | AutoValueError                  // AutoRobotValueError: an invalid value was encountered
    | IdError                         // AutoRobotIdError: refusing to silently overwrite an object
    | LicenseError                    // AutoRobotLicenseError: no licence entitlement is granted
    | LookupError                     // the base registry's `get` found nothing under the id or name
    | ValueError                      // built-in: int() of a non-numeral, checked enum construction, an unknown alias target
    | KeyError                        // built-in: a missing dictionary key
    | IndexError                      // built-in: indexing past the end of a string or sequence
    | TypeError                       // built-in: an ill-typed call or `raise`
    | StopIteration                   // built-in: next() on an exhausted iterator
    | ZeroDivisionError               // built-in: float division by zero
    | RecursionError                  // built-in: unbounded attribute-lookup recursion
    | AttributeError(name: string)    // built-in: the attribute exists nowhere
    | NotImplementedError(message: string)  // built-in: a structural contract was not met

  datatype Result<+T> = Ok(value: T) | Err(error: Error)

  datatype Option<+T> = None | Some(value: T)
}
