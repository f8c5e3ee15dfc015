/** What a service handler hands back, and the state it leaves behind. */
module Responses {

  /** Every failure inside a handler is rethrown as an HTTP 400. */
  datatype Error = BadRequest

  /** The `data` of a response: one record, or a list of records (a parsed JSON array). */
  datatype Payload<E> = One(item: E) | Many(items: seq<E>)

  /** `fromCache` tells apart the "retrieved from redis cache" answers. */
  datatype Response<E> = Ok(data: Payload<E>, fromCache: bool) | Err(error: Error)

  /** The state after a handler ran, and its response. */
  datatype Outcome<S, E> = Outcome(store: S, resp: Response<E>)
}
