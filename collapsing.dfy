/**
 * BaseCallCollapser: GET calls to the same URL share one network dispatch.
 *
 * The collapser keeps, per URL, a FIFO queue of the callbacks waiting on the
 * in-flight GET. The caller whose callback makes the queue one long dispatches
 * the real call; when it resolves, every queued callback receives the same
 * result in order and the URL's queue is removed. Other methods bypass the map.
 *
 * Enqueueing and completion are modelled as atomic steps, each a pure function
 * on a `Collapser` snapshot (`Enqueued`, `Completed`); the class
 * `BaseCallCollapser` performs them in place and is proved to agree.
 */
module Collapsing {
  import opened Types

  const HttpMethodGet: string := "GET"

  /** The ASCII upper-case of a character; other characters are unchanged. */
  function ToUpperAscii(c: char): char
  {
    if 'a' <= c <= 'z' then (c as int - 32) as char else c
  }

  /** `String.equalsIgnoreCase`, folding ASCII letters only. */
  predicate EqualsIgnoreCase(a: string, b: string)
  {
    |a| == |b| && forall i :: 0 <= i < |a| ==> ToUpperAscii(a[i]) == ToUpperAscii(b[i])
  }

  /** `isGetCall`: the request method is GET in any letter case. */
  predicate IsGetCall(call: Call)
    ensures IsGetCall(call) <==>
      |call.httpMethod| == 3 && call.httpMethod[0] in "Gg" && call.httpMethod[1] in "Ee" && call.httpMethod[2] in "Tt"
  {
    EqualsIgnoreCase(HttpMethodGet, call.httpMethod)
  }

  /** A dispatch to the HTTP layer: a bypassing call with its own callback, or a collapsing leader. */
  datatype Dispatch = Direct(call: Call, callback: CallbackId) | Collapsing(call: Call)

  /** A notification to a queued callback: the leader's call and its result. */
  datatype Delivery = Delivery(callback: CallbackId, call: Call, outcome: Outcome)

  /** The collapser's queues, plus the log of what it dispatched and delivered. */
  datatype Collapser = Collapser(queues: map<string, seq<CallbackId>>, dispatched: seq<Dispatch>, delivered: seq<Delivery>)

  /** Between steps no URL is mapped to an empty queue. */
  ghost predicate WellFormed(s: Collapser)
  {
    forall url :: url in s.queues ==> s.queues[url] != []
  }

  /** The queue for `url`, empty when the map has no entry. */
  function QueueOf(queues: map<string, seq<CallbackId>>, url: string): seq<CallbackId>
  {
    if url in queues then queues[url] else []
  }

  /**
   * Whether `enqueue(call, callback)` hands the call itself to the HTTP layer,
   * which starts it: always for a non-GET, and for a GET only as the leader of
   * its URL's queue. A GET that joins a waiting queue is never started.
   */
  predicate StartsCall(s: Collapser, call: Call)
  {
    !IsGetCall(call) || QueueOf(s.queues, call.url) == []
  }

  /**
   * Whether `enqueue(call, callback)` ends in Retrofit's IllegalStateException
   * ("Already executed"): the collapser reaches `call.enqueue` for a call that
   * was started before. A GET leader's callback is already queued by then.
   */
  predicate RejectsStartedCall(s: Collapser, call: Call)
  {
    StartsCall(s, call) && call.executed
  }

  /**
   * `enqueue(call, callback)` as one atomic step; when it throws, the state the
   * exception leaves behind.
   */
  function Enqueued(s: Collapser, call: Call, callback: CallbackId): (r: Collapser)
    ensures r.delivered == s.delivered
    ensures !IsGetCall(call) ==>
      r.queues == s.queues && r.dispatched == s.dispatched + (if call.executed then [] else [Direct(call, callback)])
    ensures IsGetCall(call) ==> QueueOf(r.queues, call.url) == QueueOf(s.queues, call.url) + [callback]
    ensures IsGetCall(call) && WellFormed(s) ==>
      r.dispatched == s.dispatched + (if call.url in s.queues || call.executed then [] else [Collapsing(call)])
    ensures |r.dispatched| == |s.dispatched| + (if StartsCall(s, call) && !call.executed then 1 else 0)
    ensures RejectsStartedCall(s, call) ==> r.dispatched == s.dispatched
    ensures forall url :: url != call.url ==> QueueOf(r.queues, url) == QueueOf(s.queues, url)
    ensures r.queues.Keys == s.queues.Keys + (if IsGetCall(call) then {call.url} else {})
    ensures WellFormed(s) ==> WellFormed(r)
  {
    if !IsGetCall(call) then
      if call.executed then s else s.(dispatched := s.dispatched + [Direct(call, callback)])
    else
      var queue := QueueOf(s.queues, call.url) + [callback];
      var dispatched := if |queue| > 1 || call.executed then s.dispatched else s.dispatched + [Collapsing(call)];
      Collapser(s.queues[call.url := queue], dispatched, s.delivered)
  }

  /** The notifications that draining `queue` with one result produces, front first. */
  function Fanout(queue: seq<CallbackId>, call: Call, outcome: Outcome): (ds: seq<Delivery>)
    ensures |ds| == |queue|
    ensures forall i :: 0 <= i < |queue| ==> ds[i] == Delivery(queue[i], call, outcome)
  {
    if queue == [] then [] else [Delivery(queue[0], call, outcome)] + Fanout(queue[1..], call, outcome)
  }

  /** The leader's completion (`applySuccessToQueue` / `applyFailureToQueue`) as one atomic step. */
  function Completed(s: Collapser, call: Call, outcome: Outcome): (r: Collapser)
    ensures call.url !in r.queues
    ensures forall url :: url != call.url ==> QueueOf(r.queues, url) == QueueOf(s.queues, url)
    ensures r.dispatched == s.dispatched
    ensures |r.delivered| == |s.delivered| + |QueueOf(s.queues, call.url)|
    ensures r.delivered[..|s.delivered|] == s.delivered
    ensures forall i :: 0 <= i < |QueueOf(s.queues, call.url)| ==>
      r.delivered[|s.delivered| + i] == Delivery(QueueOf(s.queues, call.url)[i], call, outcome)
    ensures WellFormed(s) ==> WellFormed(r)
  {
    Collapser(s.queues - {call.url}, s.dispatched, s.delivered + Fanout(QueueOf(s.queues, call.url), call, outcome))
  }

  /** Enqueueing a sequence of (call, callback) requests one after the other. */
  function EnqueuedAll(s: Collapser, requests: seq<(Call, CallbackId)>): Collapser
    decreases |requests|
  {
    if requests == [] then s
    else
      var last := requests[|requests| - 1];
      Enqueued(EnqueuedAll(s, requests[..|requests| - 1]), last.0, last.1)
  }

  /** The callbacks of a sequence of requests, in order. */
  function Callbacks(requests: seq<(Call, CallbackId)>): seq<CallbackId>
  {
    seq(|requests|, i requires 0 <= i < |requests| => requests[i].1)
  }

  /** All requests are GETs to `url`. */
  ghost predicate AllGetsTo(requests: seq<(Call, CallbackId)>, url: string)
  {
    forall i :: 0 <= i < |requests| ==> IsGetCall(requests[i].0) && requests[i].0.url == url
  }

  /**
   * Within one collapsing cycle, any number of GETs to one URL queue their
   * callbacks in arrival order and cause exactly one dispatch: the first caller's.
   */
  lemma {:induction false} OneDispatchPerCycle(s: Collapser, url: string, requests: seq<(Call, CallbackId)>)
    requires url !in s.queues
    requires AllGetsTo(requests, url)
    ensures QueueOf(EnqueuedAll(s, requests).queues, url) == Callbacks(requests)
    ensures EnqueuedAll(s, requests).dispatched ==
      s.dispatched + (if requests == [] || requests[0].0.executed then [] else [Collapsing(requests[0].0)])
    ensures forall u :: u != url ==> QueueOf(EnqueuedAll(s, requests).queues, u) == QueueOf(s.queues, u)
    ensures EnqueuedAll(s, requests).delivered == s.delivered
    decreases |requests|
  {
    if requests != [] {
      var prefix := requests[..|requests| - 1];
      assert AllGetsTo(prefix, url) by {
        forall i | 0 <= i < |prefix| ensures IsGetCall(prefix[i].0) && prefix[i].0.url == url {
          assert prefix[i] == requests[i];
        }
      }
      OneDispatchPerCycle(s, url, prefix);
      assert Callbacks(prefix) + [requests[|requests| - 1].1] == Callbacks(requests);
      if prefix != [] {
        assert prefix[0] == requests[0];
      }
    }
  }

  /**
   * A whole cycle: n GETs to one URL, then the leader's completion. Every queued
   * callback is notified exactly once, in FIFO order, with the leader's call and
   * result; the URL leaves the map, so the next GET to it dispatches again; other
   * URLs are untouched.
   */
  lemma CycleNotifiesEveryCaller(s: Collapser, url: string, requests: seq<(Call, CallbackId)>, outcome: Outcome)
    requires url !in s.queues
    requires requests != [] && AllGetsTo(requests, url) && !requests[0].0.executed
    ensures var r := Completed(EnqueuedAll(s, requests), requests[0].0, outcome);
      && url !in r.queues
      && r.dispatched == s.dispatched + [Collapsing(requests[0].0)]
      && |r.delivered| == |s.delivered| + |requests|
      && r.delivered[..|s.delivered|] == s.delivered
      && (forall i :: 0 <= i < |requests| ==>
            r.delivered[|s.delivered| + i] == Delivery(requests[i].1, requests[0].0, outcome))
      && (forall u :: u != url ==> QueueOf(r.queues, u) == QueueOf(s.queues, u))
      && (forall c: Call, cb: CallbackId :: IsGetCall(c) && c.url == url && !c.executed ==>
            Enqueued(r, c, cb).dispatched == r.dispatched + [Collapsing(c)])
  {
    OneDispatchPerCycle(s, url, requests);
  }

  /**
   * A GET and a POST enqueued together are both dispatched: the POST directly
   * with its own callback, the GET as the leader of its queue.
   */
  lemma GetAndPostBothDispatched(s: Collapser, get: Call, getCallback: CallbackId, post: Call, postCallback: CallbackId)
    requires IsGetCall(get) && !IsGetCall(post) && get.url !in s.queues
    requires !get.executed && !post.executed
    ensures var r := Enqueued(Enqueued(s, get, getCallback), post, postCallback);
      && r.dispatched == s.dispatched + [Collapsing(get), Direct(post, postCallback)]
      && QueueOf(r.queues, get.url) == [getCallback]
      && r.queues.Keys == s.queues.Keys + {get.url}
  {
  }

  /**
   * While a URL has a waiting queue, GETs to it only join the queue, in arrival
   * order, and nothing is dispatched.
   */
  lemma {:induction false} FollowersOnlyQueue(s: Collapser, url: string, requests: seq<(Call, CallbackId)>)
    requires QueueOf(s.queues, url) != []
    requires AllGetsTo(requests, url)
    ensures QueueOf(EnqueuedAll(s, requests).queues, url) == QueueOf(s.queues, url) + Callbacks(requests)
    ensures EnqueuedAll(s, requests).dispatched == s.dispatched
    decreases |requests|
  {
    if requests != [] {
      var prefix := requests[..|requests| - 1];
      assert AllGetsTo(prefix, url) by {
        forall i | 0 <= i < |prefix| ensures IsGetCall(prefix[i].0) && prefix[i].0.url == url {
          assert prefix[i] == requests[i];
        }
      }
      FollowersOnlyQueue(s, url, prefix);
      assert Callbacks(prefix) + [requests[|requests| - 1].1] == Callbacks(requests);
    }
  }

  /**
   * A GET leader whose call was already started: `call.enqueue` throws after
   * its callback was queued, so the URL keeps a queue that no completion will
   * drain. Every later GET to the URL joins it and none is ever dispatched.
   */
  lemma StartedLeaderWedgesUrl(s: Collapser, leader: Call, callback: CallbackId, requests: seq<(Call, CallbackId)>)
    requires IsGetCall(leader) && leader.executed && leader.url !in s.queues
    requires AllGetsTo(requests, leader.url)
    ensures RejectsStartedCall(s, leader)
    ensures var r := EnqueuedAll(Enqueued(s, leader, callback), requests);
      && r.dispatched == s.dispatched
      && QueueOf(r.queues, leader.url) == [callback] + Callbacks(requests)
  {
    FollowersOnlyQueue(Enqueued(s, leader, callback), leader.url, requests);
  }

  /** The call collapser itself: the queue map is updated in place. */
  class BaseCallCollapser {
    var queues: map<string, seq<CallbackId>>
    var dispatched: seq<Dispatch>
    var delivered: seq<Delivery>

    function State(): Collapser
      reads this
    {
      Collapser(queues, dispatched, delivered)
    }

    ghost predicate Valid()
      reads this
    {
      WellFormed(State())
    }

    constructor ()
      ensures Valid() && State() == Collapser(map[], [], [])
    {
      queues := map[];
      dispatched := [];
      delivered := [];
    }

    /**
     * `enqueue(call, callback)`; `thrown` reports Retrofit's IllegalStateException
     * for a call started before.
     */
    method Enqueue(call: Call, callback: CallbackId) returns (thrown: bool)
      requires Valid()
      modifies this
      ensures Valid() && State() == Enqueued(old(State()), call, callback)
      ensures thrown == RejectsStartedCall(old(State()), call)
    {
      if !IsGetCall(call) {
        if call.executed {
          return true;
        }
        dispatched := dispatched + [Direct(call, callback)];
        return false;
      }
      var requestQueue := GetQueueFromRequest(call);
      requestQueue := requestQueue + [callback];
      queues := queues[call.url := requestQueue];
      if |requestQueue| > 1 {
        return false;
      }
      thrown := CollapsingEnqueue(call);
    }

    /** `getQueueFromRequest(call)`: the URL's queue, created empty and stored when absent. */
    method GetQueueFromRequest(call: Call) returns (requestQueue: seq<CallbackId>)
      modifies this`queues
      ensures requestQueue == QueueOf(old(queues), call.url)
      ensures queues == old(queues)[call.url := requestQueue]
    {
      if call.url in queues {
        requestQueue := queues[call.url];
        return;
      }
      requestQueue := [];
      queues := queues[call.url := requestQueue];
    }

    /**
     * `collapsingEnqueue(call)`: the leader dispatches the call with the
     * collapser's own callback, unless Retrofit rejects it as already executed.
     */
    method CollapsingEnqueue(call: Call) returns (thrown: bool)
      modifies this`dispatched
      ensures thrown == call.executed
      ensures dispatched == old(dispatched) + (if call.executed then [] else [Collapsing(call)])
    {
      if call.executed {
        return true;
      }
      dispatched := dispatched + [Collapsing(call)];
      thrown := false;
    }

    /**
     * `applySuccessToQueue` / `applyFailureToQueue`: poll every queued callback,
     * hand it the leader's result, then remove the URL's queue.
     */
    method ApplyToQueue(call: Call, outcome: Outcome)
      requires Valid()
      modifies this
      ensures Valid() && State() == Completed(old(State()), call, outcome)
    {
      var _ := GetQueueFromRequest(call);
      ghost var polled: seq<CallbackId> := [];
      while queues[call.url] != []
        invariant call.url in queues
        invariant polled + queues[call.url] == QueueOf(old(queues), call.url)
        invariant queues - {call.url} == old(queues) - {call.url}
        invariant dispatched == old(dispatched)
        invariant delivered == old(delivered) + Fanout(polled, call, outcome)
        decreases |queues[call.url]|
      {
        var currentCallback := queues[call.url][0];
        queues := queues[call.url := queues[call.url][1..]];
        delivered := delivered + [Delivery(currentCallback, call, outcome)];
        polled := polled + [currentCallback];
      }
      assert polled == QueueOf(old(queues), call.url);
      RemoveQueueFromRequest(call);
    }

    /** `removeQueueFromRequest(call)`. */
    method RemoveQueueFromRequest(call: Call)
      modifies this`queues
      ensures queues == old(queues) - {call.url}
    {
      queues := queues - {call.url};
    }
  }
}
