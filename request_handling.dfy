/**
 * NetworkRequestHandler.safeApiCall: runs a request block and classifies what
 * it produced as Success (2xx response), Error (other response) or Failure
 * (something was thrown, by the block or by the success check).
 */
module RequestHandling {
  import opened Types
  import Callbacks

  /** The result of running code that may throw. */
  datatype Attempt<T> = Returned(value: T) | Threw(cause: Throwable)

  /** The sealed class `NetworkResponse`. */
  datatype NetworkResponse = Success(response: Response) | Error(response: Response) | Failure(t: Throwable)

  /** Retrofit's own `isSuccessful`, which never throws. */
  function RetrofitIsSuccessful(r: Response): Attempt<bool>
  {
    Returned(IsSuccessful(r))
  }

  /**
   * `safeApiCall(block)`: `block` is what invoking the block produced, and
   * `isSuccessful` what reading `response.isSuccessful` produces (a mocked or
   * proxied response may throw there).
   */
  function SafeApiCall(block: Attempt<Response>, isSuccessful: Response -> Attempt<bool>): (r: NetworkResponse)
    ensures r.Success? <==> block.Returned? && isSuccessful(block.value) == Returned(true)
    ensures r.Error? <==> block.Returned? && isSuccessful(block.value) == Returned(false)
    ensures r.Failure? <==> block.Threw? || isSuccessful(block.value).Threw?
    ensures (r.Success? || r.Error?) ==> r.response == block.value
    ensures r.Failure? && block.Threw? ==> r.t == block.cause
    ensures r.Failure? && block.Returned? ==> r.t == isSuccessful(block.value).cause
  {
    match block
    case Threw(t) => Failure(t)
    case Returned(response) =>
      match isSuccessful(response)
      case Threw(t) => Failure(t)
      case Returned(ok) => if ok then Success(response) else Error(response)
  }

  /** What the HTTP layer would report to a callback for the same attempt. */
  function AsOutcome(block: Attempt<Response>): Outcome
  {
    match block
    case Returned(response) => Responded(response)
    case Threw(t) => Failed(t)
  }

  /**
   * With Retrofit's `isSuccessful`, safeApiCall classifies exactly as
   * NetworkCallback dispatches with its default auth check: Success goes with
   * onResponseSuccessful, Error with onResponseFailed (same code), Failure with
   * onCallFailure (same throwable).
   */
  lemma SafeApiCallAgreesWithNetworkCallback(block: Attempt<Response>)
    ensures var r := SafeApiCall(block, RetrofitIsSuccessful);
      var h := Callbacks.Handle(Callbacks.DefaultIsAuthError, AsOutcome(block));
      && (r.Success? <==> h.OnResponseSuccessful?)
      && (r.Error? <==> h.OnResponseFailed?)
      && (r.Failure? <==> h.OnCallFailure?)
      && (r.Success? ==> h.body == r.response.body)
      && (r.Error? ==> h.code == r.response.code)
      && (r.Failure? ==> h.cause == r.t)
  {
  }
}
