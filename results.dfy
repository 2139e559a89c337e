/** Error values standing for the Python exceptions the modelled code lets escape. */
module Results {

  /** The exception kinds raised (and not caught) by the record-shaping code. */
  datatype Fault =
    | KeyError(key: string)      // d[k] on a dict without k
    | IndexError                 // l[i] out of range
    | IntKeyError(index: int)    // d[i] with an int index on a dict, whose keys are str
    | TypeError                  // a value of the wrong kind (indexing a non-list, str + non-str, ...)
    | AttributeError             // an attribute of None (a table without rows has no `tr`)
    | ValueError                 // str.index that finds nothing
    | DateError(text: string)    // dateutil could not parse the text
    | UnboundName(name: string)  // a local read before the first assignment

  datatype Option<+T> = None | Some(value: T)

  /** Either a value or the exception that ended the computation. */
  datatype Result<+T> = Ok(value: T) | Err(fault: Fault) {
    predicate IsFailure() { Err? }

    function PropagateFailure<U>(): Result<U>
      requires Err?
    {
      Err(fault)
    }

    function Extract(): T
      requires Ok?
    {
      value
    }
  }
}
