/** Result shapes shared by the whole model.

    The system never computes signatures or talks to the network itself in this
    model: each library call it makes (the credential check of `jsonwebtoken`,
    an HTTP call through `axios` or `fetch`) is represented by the value the call
    produced, handed to the operation as a parameter.
 */
module Wrappers {

  datatype Option<+T> = None | Some(value: T) {
    function GetOr(default: T): T
    {
      match this
      case Some(v) => v
      case None => default
    }
  }

  /** The outcome of `jwt.verify`: the embedded payload, or a failure.  The
      library throws different errors for an expired token and for a bad or
      malformed one.  Every route catches them with a bare `catch` and never looks
      at which, so one `Invalid` stands for all of them. */
  datatype Verify<+P> = Valid(payload: P) | Invalid

  /** The outcome of one upstream HTTP call: the response body of a 2xx reply,
      or a rejection (non-2xx status, transport error, unreadable body). */
  datatype Upstream<+D> = Ok(data: D) | Err
}
