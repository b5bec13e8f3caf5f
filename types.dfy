/**
 * Values shared by the networking core: HTTP calls and responses as the core sees
 * them through Retrofit, the failures it raises or forwards, and the observable
 * events (strategy hooks, collapser hand-offs, consumer notifications) that the
 * repository produces.
 */
module Types {

  /** A decoded response body or cached datum; its content is opaque to the core. */
  type Payload = string

  /** The cache object handed to the query strategy; opaque to the core. */
  type CacheRef = string

  /** Identity of a completion callback handed to the call collapser. */
  type CallbackId = nat

  /**
   * A Retrofit call: its request's HTTP method and URL, and its lifecycle flags.
   * Two calls with the same fields are indistinguishable in this model.
   */
  datatype Call = Call(httpMethod: string, url: string, executed: bool, canceled: bool)

  /** `Call.clone()`: a new, not yet started call for the same request. */
  function Clone(call: Call): (c: Call)
    ensures c.httpMethod == call.httpMethod && c.url == call.url
    ensures !c.executed && !c.canceled
  {
    call.(executed := false, canceled := false)
  }

  /** A Retrofit response: status code, decoded body and error body. */
  datatype Response = Response(code: int, body: Payload, errorBody: Payload)

  /** `Response.isSuccessful()`: Retrofit calls a response successful when its code is in [200, 300). */
  predicate IsSuccessful(r: Response)
  {
    200 <= r.code < 300
  }

  /** The throwables the core creates or forwards. */
  datatype Throwable =
    | Cause(id: nat)                          // raised by the HTTP layer or user code, opaque to the core
    | CacheMiss                               // CacheMissException
    | NetworkResource(url: string, code: int) // NetworkResourceException(resourceUrl, errorCode)
    | PollRunOutOfTries(url: string)          // PollRunOutOfTriesException(call)

  /** What the HTTP layer eventually reports for a dispatched call: a response or a failure. */
  datatype Outcome = Responded(response: Response) | Failed(cause: Throwable)

  /**
   * A `Consumer` stored in a deferred query: a user lambda, or one of the two
   * method references `callback::onSuccess` / `callback::onError` of an
   * IRepositoryCallback.
   */
  datatype ConsumerRef = Consumer(id: nat) | CallbackOnSuccess(callback: nat) | CallbackOnError(callback: nat)

  /** What a consumer accepts: the data on success, the throwable on error. */
  datatype Item = Data(payload: Payload) | Thrown(cause: Throwable)

  /** The observable events a repository query produces, in order. */
  datatype Event =
    | ReadLocalSource(cache: CacheRef)                  // queryStrategy.readLocalSource(cache)
    | ConsumeRemoteSource(data: Payload, cache: CacheRef) // queryStrategy.consumeRemoteSource(data, cache)
    | CollapserEnqueue(call: Call, callback: CallbackId)  // callCollapser.enqueue(call, networkCallback)
    | Accepted(consumer: ConsumerRef, item: Item)         // consumer.accept(item)
}
