/** Small value wrappers shared by every module of the model. */
module Wrappers {

  /** A value that may be absent: JavaScript `null` / `undefined` where the client tests for it. */
  datatype Option<+T> = None | Some(value: T)

  /** The outcome of one call to the REST API, seen from the client: the reply body when the call
      resolved, or `Err` when the promise rejected (transport failure, error status, unparsable body). */
  datatype Reply<+T> = Ok(payload: T) | Err
}
