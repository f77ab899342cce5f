/** The exceptions the modelled code throws or lets through, as values. */
module Errors {
  import opened Wrappers

  datatype Failure =
    | InvalidAccessToken            // the gateway rejected the bearer token
    | IllegalApiResponse(body: string) // the response carried an error code
    | SignatureMismatch             // a signed payload failed its signature check
    | MalformedJson                 // the body could not be parsed or deserialised
    | NullReference                 // an absent value was dereferenced
    | TransportFailure(reason: string) // network errors and every other exception

  type Outcome<+T> = Result<T, Failure>
}
