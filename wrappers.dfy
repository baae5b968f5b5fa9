/** Option and Result, the two wrappers the model uses for Python's `None`
    returns and raised exceptions. */
module Wrappers {

  datatype Option<+T> = None | Some(value: T)

  /** The exceptions the modelled code can raise. */
  datatype Error =
    | NoResultFound          // `Query.one()` found no row
    | AttributeError(name: string)  // attribute read on `None`
    | KeyError(key: string)  // `dict[key]` or `dict.pop(key)` on a missing key
    | TypeError              // `in` applied to a `None` JSON document

  datatype Result<+T> = Ok(value: T) | Err(error: Error)
}
