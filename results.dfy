/** Failure-compatible wrappers and the error kinds raised by the resource core. */
module Results {

  /** An optional value: the JavaScript `undefined` versus a present value. */
  datatype Option<+T> = None | Some(value: T)

  /** The errors the modelled code throws. Errors raised by collaborators that
      are not part of this model travel as `External` and are never reinterpreted. */
  datatype Error =
    | InvalidArgumentType              // the options argument is not a plain object
    | InvalidCommandOption(key: string) // an options key that no declared option consumed
    | InvalidValueType                 // an array value that is not an array
    | MissingAlias                     // "'alias' property is missing"
    | AliasNotString                   // "'alias' property should be a string"
    | AliasesNotStringOrArray          // "'aliases' property should be a string or an array"
    | External(message: string)        // thrown by a collaborator, propagated verbatim

  /** A computation that either returns a value or throws an `Error`. */
  datatype Result<+T> = Ok(value: T) | Err(error: Error) {
    predicate IsFailure() { Err? }

    function PropagateFailure<U>(): Result<U>
      requires Err?
    {
      Err(error)
    }

    function Extract(): T
      requires Ok?
    {
      value
    }
  }
}
