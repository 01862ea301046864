/** Failure-carrying values shared by every module of the model. */
module Wrappers {

  datatype Option<T> = None | Some(value: T)

  /** The exceptions the modelled code can raise. None of them is caught where it
      arises, so each one ends the operation that raised it. */
  datatype Raised =
    | NoAttribute      // `.get` called on something that is not a dict (AttributeError)
    | NotIterable      // a `for` loop over None (TypeError)
    | MissingKey       // `d[k]` with `k` absent from the dict `d` (KeyError)
    | IndexOutOfRange  // `xs[i]` past the end of a list (IndexError)
    | NotSubscriptable // `d[k]` with `d` None (TypeError)
    | Unhashable       // a list or dict used as a dict key (TypeError)

  datatype Result<T> = Ok(value: T) | Err(error: Raised)
}
