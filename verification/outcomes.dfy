/** Optional values and the success-or-failure outcome of an external generation call. */
module Outcomes {

  datatype Option<+T> = None | Some(value: T)

  /** What a call into the generative service yields: a usable payload, or a failure
      (a thrown error, an empty payload or text that is not JSON all look alike). */
  datatype Outcome<+T> = Ok(value: T) | Failed
}
