/** Failure-compatible wrappers shared by every stage of the circuit compiler.

    Every exception the Python pipeline raises (SyntaxError from the lexer and
    parser, the TypeError of the parser's synthetic end token, ValueError for an
    unknown subcircuit or a malformed transient command) is modelled by the one
    failure outcome `Err`: callers never distinguish them. */
module Results {

  datatype Option<+T> = None | Some(value: T)

  /** Success with a value, or the single abstract failure. */
  datatype Result<+T> = Ok(value: T) | Err {

    predicate IsFailure() {
      Err?
    }

    function PropagateFailure<U>(): Result<U>
      requires Err?
    {
      Err
    }

    function Extract(): T
      requires Ok?
    {
      value
    }
  }
}
