/** Small failure-carrying datatypes shared by the other modules. */
module Wrappers {

  /** An optional value: a JavaScript property that may be absent. */
  datatype Option<+T> = None | Some(value: T)

  /** How a request's `queryFulfilled` promise settles: resolved with the
      response body, or rejected (network or API error). */
  datatype Outcome<+T> = Fulfilled(data: T) | Rejected
}
