/** The exceptions raised along the client's request path, as values, and the
    Option and Result wrappers every other module returns them in. */
module Errors {

  /** One constructor per exception the core raises.
      - NotImplemented: NotImplementedError for an HTTP verb the processor does not know;
      - ApiError: APIError for a response status outside {200, 201, 204}, reduced to
        the status code it is built from;
      - InvalidLatitude / InvalidLongitude: the ValueError of the bounding box validators,
        carrying the rejected value;
      - KeyError: a decoder looked up a key the JSON object does not have;
      - TypeError: a decoder was handed a JSON value of the wrong shape (not an object,
        not a list, or a list of the wrong length for positional construction). */
  datatype Error =
    | NotImplemented(verb: string)
    | ApiError(status: int)
    | InvalidLatitude(latitude: real)
    | InvalidLongitude(longitude: real)
    | KeyError(key: string)
    | TypeError

  /** Python's Optional: None or a present value. */
  datatype Option<+T> = None | Some(value: T)

  /** A computation that either returns a value or raises one of the errors above.
      Failure-compatible, so `:-` propagates the first error, as a Python raise does. */
  datatype Result<+T> = Success(value: T) | Failure(error: Error) {

    predicate IsFailure() {
      Failure?
    }

    function PropagateFailure<U>(): Result<U>
      requires Failure?
    {
      Failure(error)
    }

    function Extract(): T
      requires Success?
    {
      value
    }
  }
}
