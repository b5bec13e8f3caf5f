/**
 * CallUtils.pollWithDelay: re-issue a call while a polling condition holds on
 * its responses, with a budget of tries. The delay between attempts (a Timer)
 * is not modelled; the network's answers to the successive attempts are given
 * as a sequence of outcomes, and the result is the trace of what polling did.
 */
module Polling {
  import opened Wrappers
  import opened Types

  /** The single notification the user callback receives. */
  datatype Notice = NotifiedResponse(call: Call, response: Response) | NotifiedFailure(call: Call, cause: Throwable)

  /**
   * What polling did: the calls it enqueued in order, how many times it tested
   * the polling condition, the notification sent to the user callback (None
   * while the last enqueued call has not been answered), and whether Retrofit's
   * IllegalStateException for an already executed call escaped to the caller.
   */
  datatype PollTrace = PollTrace(enqueued: seq<Call>, tests: nat, notice: Option<Notice>, thrown: bool)

  /**
   * The private `pollWithDelay(triesRemaining, call, pollingCondition, callback, ...)`.
   * `outcomes[i]` is the network's answer to the i-th call this invocation enqueues.
   */
  function Poll(triesRemaining: int, call: Call, condition: Response -> bool, outcomes: seq<Outcome>): (t: PollTrace)
    ensures |t.enqueued| <= if triesRemaining > 0 then triesRemaining else 0
    ensures t.tests <= |t.enqueued| <= |outcomes| + 1
    ensures t.thrown <==> triesRemaining > 0 && call.executed
    ensures t.thrown ==> t.enqueued == [] && t.notice.None?
    ensures t.notice.None? && !t.thrown ==> |t.enqueued| == |outcomes| + 1
    ensures |outcomes| >= triesRemaining && !t.thrown ==> t.notice.Some?
    ensures forall i :: 0 <= i < |t.enqueued| ==>
      t.enqueued[i].url == call.url && t.enqueued[i].httpMethod == call.httpMethod
    ensures triesRemaining <= 0 ==> t == PollTrace([], 0, Some(NotifiedFailure(call, PollRunOutOfTries(call.url))), false)
    ensures triesRemaining > 0 && !call.executed ==> t.enqueued != [] && t.enqueued[0] == call
    decreases |outcomes|
  {
    if triesRemaining <= 0 then
      PollTrace([], 0, Some(NotifiedFailure(call, PollRunOutOfTries(call.url))), false)
    else if call.executed then
      PollTrace([], 0, None, true)
    else if outcomes == [] then
      PollTrace([call], 0, None, false)
    else
      match outcomes[0]
      case Failed(t) => PollTrace([call], 0, Some(NotifiedFailure(call, t)), false)
      case Responded(response) =>
        if !condition(response) then
          PollTrace([call], 1, Some(NotifiedResponse(call, response)), false)
        else
          var rest := Poll(triesRemaining - 1, Clone(call), condition, outcomes[1..]);
          PollTrace([call] + rest.enqueued, 1 + rest.tests, rest.notice, rest.thrown)
  }

  /**
   * The public `pollWithDelay(tries, call, pollingCondition, callback, delay, unit)`:
   * with no tries the callback fails at once; a call executed before makes the
   * first `call.enqueue` throw out of this method, before anything is enqueued
   * or notified. Otherwise the first attempt uses the given call, the budget
   * bounds the enqueues, and once the network has answered `tries` attempts the
   * callback has been notified.
   */
  function PollWithDelay(tries: int, call: Call, condition: Response -> bool, outcomes: seq<Outcome>): (t: PollTrace)
    ensures tries <= 0 ==> t == PollTrace([], 0, Some(NotifiedFailure(call, PollRunOutOfTries(call.url))), false)
    ensures t.thrown <==> tries >= 1 && call.executed
    ensures t.thrown ==> t.enqueued == [] && t.notice.None?
    ensures tries >= 1 && !call.executed ==> 1 <= |t.enqueued| <= tries && t.enqueued[0] == call
    ensures tries >= 1 && !call.executed && |outcomes| >= tries ==> t.notice.Some?
  {
    Poll(tries, call, condition, outcomes)
  }

  /** Every answer among the first `n` is a response on which the condition holds. */
  ghost predicate KeepsPolling(condition: Response -> bool, outcomes: seq<Outcome>, n: nat)
    requires n <= |outcomes|
  {
    forall i :: 0 <= i < n ==> outcomes[i].Responded? && condition(outcomes[i].response)
  }

  /** The call used by the attempt after `k` attempts: the original, then clones. */
  function AttemptCall(call: Call, k: nat): Call
  {
    if k == 0 then call else Clone(call)
  }

  /**
   * If the condition holds on every response, polling enqueues exactly `tries`
   * calls, tests the condition `tries` times and ends with one
   * PollRunOutOfTries failure.
   */
  lemma {:induction false} PollRunsOutOfTries(tries: nat, call: Call, condition: Response -> bool, outcomes: seq<Outcome>)
    requires !call.executed
    requires tries <= |outcomes| && KeepsPolling(condition, outcomes, tries)
    ensures var t := Poll(tries, call, condition, outcomes);
      && !t.thrown && |t.enqueued| == tries && t.tests == tries
      && t.notice == Some(NotifiedFailure(AttemptCall(call, tries), PollRunOutOfTries(call.url)))
    decreases tries
  {
    if tries > 0 {
      assert KeepsPolling(condition, outcomes[1..], tries - 1) by {
        forall i | 0 <= i < tries - 1 ensures outcomes[1..][i].Responded? && condition(outcomes[1..][i].response) {
          assert outcomes[1..][i] == outcomes[i + 1];
        }
      }
      assert outcomes[0].Responded? && condition(outcomes[0].response);
      PollRunsOutOfTries(tries - 1, Clone(call), condition, outcomes[1..]);
    }
  }

  /**
   * If the condition first fails on the k-th response (k <= tries), polling
   * enqueues exactly k calls and hands that response to the callback.
   */
  lemma {:induction false} PollStopsOnFirstRejectedResponse(tries: int, call: Call, condition: Response -> bool, outcomes: seq<Outcome>, k: nat)
    requires !call.executed
    requires 1 <= k <= tries && k <= |outcomes|
    requires KeepsPolling(condition, outcomes, k - 1)
    requires outcomes[k - 1].Responded? && !condition(outcomes[k - 1].response)
    ensures var t := Poll(tries, call, condition, outcomes);
      && !t.thrown && |t.enqueued| == k && t.tests == k
      && t.notice == Some(NotifiedResponse(AttemptCall(call, k - 1), outcomes[k - 1].response))
    decreases k
  {
    if k > 1 {
      assert KeepsPolling(condition, outcomes[1..], k - 2) by {
        forall i | 0 <= i < k - 2 ensures outcomes[1..][i].Responded? && condition(outcomes[1..][i].response) {
          assert outcomes[1..][i] == outcomes[i + 1];
        }
      }
      assert outcomes[0].Responded? && condition(outcomes[0].response);
      assert outcomes[1..][k - 2] == outcomes[k - 1];
      PollStopsOnFirstRejectedResponse(tries - 1, Clone(call), condition, outcomes[1..], k - 1);
    }
  }

  /**
   * A transport failure of the k-th attempt (k <= tries) ends polling after k
   * enqueues and is forwarded unchanged to the callback.
   */
  lemma {:induction false} PollForwardsFailure(tries: int, call: Call, condition: Response -> bool, outcomes: seq<Outcome>, k: nat)
    requires !call.executed
    requires 1 <= k <= tries && k <= |outcomes|
    requires KeepsPolling(condition, outcomes, k - 1)
    requires outcomes[k - 1].Failed?
    ensures var t := Poll(tries, call, condition, outcomes);
      && !t.thrown && |t.enqueued| == k && t.tests == k - 1
      && t.notice == Some(NotifiedFailure(AttemptCall(call, k - 1), outcomes[k - 1].cause))
    decreases k
  {
    if k > 1 {
      assert KeepsPolling(condition, outcomes[1..], k - 2) by {
        forall i | 0 <= i < k - 2 ensures outcomes[1..][i].Responded? && condition(outcomes[1..][i].response) {
          assert outcomes[1..][i] == outcomes[i + 1];
        }
      }
      assert outcomes[0].Responded? && condition(outcomes[0].response);
      assert outcomes[1..][k - 2] == outcomes[k - 1];
      PollForwardsFailure(tries - 1, Clone(call), condition, outcomes[1..], k - 1);
    }
  }
}
