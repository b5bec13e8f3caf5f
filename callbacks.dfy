/**
 * NetworkCallback: adapts Retrofit's two completion methods to four more
 * specific handlers. A response goes to exactly one of handleAuthError,
 * onResponseSuccessful and onResponseFailed; a failure goes to onCallFailure.
 */
module Callbacks {
  import opened Types

  /** The handler an outcome is routed to, with the arguments it receives. */
  datatype Handler =
    | HandleAuthError(response: Response)
    | OnResponseSuccessful(body: Payload)
    | OnResponseFailed(errorBody: Payload, code: int)
    | OnCallFailure(cause: Throwable)

  /** The default `isAuthError`: no response is an authentication error. */
  function DefaultIsAuthError(response: Response): (authError: bool)
    ensures !authError
  {
    false
  }

  /** `onResponse(call, response)` for a subclass whose `isAuthError` is the given test. */
  function OnResponse(isAuthError: Response -> bool, response: Response): (h: Handler)
    ensures h.HandleAuthError? <==> isAuthError(response)
    ensures h.OnResponseSuccessful? <==> !isAuthError(response) && IsSuccessful(response)
    ensures h.OnResponseFailed? <==> !isAuthError(response) && !IsSuccessful(response)
    ensures !h.OnCallFailure?
    ensures h.HandleAuthError? ==> h.response == response
    ensures h.OnResponseSuccessful? ==> h.body == response.body
    ensures h.OnResponseFailed? ==> h.errorBody == response.errorBody && h.code == response.code
  {
    if isAuthError(response) then HandleAuthError(response)
    else if IsSuccessful(response) then OnResponseSuccessful(response.body)
    else OnResponseFailed(response.errorBody, response.code)
  }

  /** The whole callback: `onResponse` for a response, `onFailure` for a failure. */
  function Handle(isAuthError: Response -> bool, outcome: Outcome): (h: Handler)
    ensures h.OnCallFailure? <==> outcome.Failed?
    ensures outcome.Failed? ==> h.cause == outcome.cause
    ensures outcome.Responded? ==> h == OnResponse(isAuthError, outcome.response)
  {
    match outcome
    case Responded(response) => OnResponse(isAuthError, response)
    case Failed(t) => OnCallFailure(t)
  }

  /**
   * With the default `isAuthError` the dispatch reduces to a split on success:
   * a 2xx response reaches onResponseSuccessful with its body, any other
   * reaches onResponseFailed with its error body and code, and a failure
   * reaches onCallFailure unchanged; handleAuthError is never chosen.
   */
  lemma DefaultDispatchSplitsOnSuccess(outcome: Outcome)
    ensures var h := Handle(DefaultIsAuthError, outcome);
      && !h.HandleAuthError?
      && (outcome.Responded? && IsSuccessful(outcome.response) ==> h == OnResponseSuccessful(outcome.response.body))
      && (outcome.Responded? && !IsSuccessful(outcome.response) ==>
            h == OnResponseFailed(outcome.response.errorBody, outcome.response.code))
      && (outcome.Failed? ==> h == OnCallFailure(outcome.cause))
  {
  }
}
