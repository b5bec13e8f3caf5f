/**
 * Repository: builds deferred queries that consult a cache and/or the network
 * according to an access policy, and notifies the query's consumers.
 *
 * A query's run is modelled as the sequence of observable events it produces
 * (`Types.Event`): the strategy read of the cache, the hand-off to the call
 * collapser, and consumer notifications. What `queryStrategy.readLocalSource`
 * returns is the parameter `stored`; the identity of the NetworkCallback that
 * `fetchData` creates is the parameter `networkCallback`. When the collapser
 * later delivers the network's outcome to that callback, the query produces the
 * events of `NetworkCallbackEvents`.
 */
module Repositories {
  import opened Wrappers
  import opened Types
  import Callbacks
  import Collapsing
  import DeferredQueries
  import TimeResolution

  /** Queries never check the cache. */
  const CacheNone: int := 1
  /** Queries check the cache first (documented: fetch and update it on a miss). */
  const CacheFirst: int := 2
  /** Queries only check the cache. */
  const CacheOnly: int := 3
  /** The initial value of DEFAULT_ACCESS_POLICY. */
  const DefaultAccessPolicy: int := CacheFirst

  /** `accessCache(policy)`: of the three policies, only CACHE_NONE skips the cache. */
  predicate AccessCache(policy: int): (consults: bool)
    ensures policy == CacheNone ==> !consults
    ensures policy == CacheFirst || policy == CacheOnly ==> consults
  {
    policy != CacheNone
  }

  /** How `run()` ended: normally, or with the IllegalStateException of `fetchData`. */
  datatype RunResult = Ran | IllegalState

  /** The events a run produced, and how it ended. */
  datatype Run = Run(events: seq<Event>, result: RunResult)

  /** The run hands its call to the call collapser. */
  predicate Fetches(r: Run)
  {
    exists i :: 0 <= i < |r.events| && r.events[i].CollapserEnqueue?
  }

  /** The number of consumer notifications among `events`. */
  function Notifications(events: seq<Event>): (n: nat)
    ensures n <= |events|
    ensures n == 0 <==> forall i :: 0 <= i < |events| ==> !events[i].Accepted?
  {
    if events == [] then 0 else (if events[0].Accepted? then 1 else 0) + Notifications(events[1..])
  }

  /** The run neither throws, nor fetches, nor notifies anybody. */
  predicate Silent(r: Run)
  {
    r.result.Ran? && !Fetches(r) && forall i :: 0 <= i < |r.events| ==> !r.events[i].Accepted?
  }

  /** `fetchData(call, strategy, query)` up to the hand-off to the collapser. */
  function Fetch(call: Call, networkCallback: CallbackId): (r: Run)
    ensures r.result.IllegalState? <==> call.executed || call.canceled
    ensures r.result.IllegalState? ==> r.events == []
    ensures r.result.Ran? ==> r.events == [CollapserEnqueue(call, networkCallback)]
    ensures Fetches(r) <==> r.result.Ran?
  {
    if call.executed || call.canceled then Run([], IllegalState)
    else
      var r := Run([CollapserEnqueue(call, networkCallback)], Ran);
      assert r.events[0].CollapserEnqueue?;
      r
  }

  /**
   * The query's call after a run. `call.enqueue` starts a call, so the call is
   * executed afterwards exactly when the run handed it to the collapser and the
   * collapser dispatched it; a GET that only joined a waiting queue is never
   * started.
   */
  function CallAfterRun(r: Run, call: Call, s: Collapsing.Collapser): (c: Call)
    ensures c.httpMethod == call.httpMethod && c.url == call.url && c.canceled == call.canceled
    ensures c.executed <==> call.executed || (Fetches(r) && Collapsing.StartsCall(s, call))
  {
    if Fetches(r) && Collapsing.StartsCall(s, call) then call.(executed := true) else call
  }

  /**
   * `run()` of the query built by `query(policy, call, queryStrategy)`, as
   * written: a cache hit goes to the success consumer, a miss under CACHE_ONLY
   * to the error consumer with a CacheMissException, and a miss under any other
   * cache-reading policy, CACHE_FIRST included, does nothing more.
   */
  function RunQuery(policy: int, call: Call, cache: CacheRef, stored: Option<Payload>, networkCallback: CallbackId,
                    onSuccess: Option<ConsumerRef>, onError: Option<ConsumerRef>): (r: Run)
    ensures AccessCache(policy) <==> r.events != [] && r.events[0] == ReadLocalSource(cache)
    ensures Fetches(r) <==> policy == CacheNone && !call.executed && !call.canceled
    ensures r.result.IllegalState? <==> policy == CacheNone && (call.executed || call.canceled)
    ensures policy == CacheNone ==> r == Fetch(call, networkCallback)
    ensures AccessCache(policy) && stored.Some? ==> r.events[1..] == DeferredQueries.Notify(onSuccess, Data(stored.value))
    ensures policy == CacheOnly && stored.None? ==> r.events[1..] == DeferredQueries.Notify(onError, Thrown(CacheMiss))
    ensures AccessCache(policy) && policy != CacheOnly && stored.None? ==> r == Run([ReadLocalSource(cache)], Ran)
    ensures Notifications(r.events) <= 1
  {
    if !AccessCache(policy) then
      Fetch(call, networkCallback)
    else
      var notified :=
        if stored.Some? then DeferredQueries.Notify(onSuccess, Data(stored.value))
        else if policy == CacheOnly then DeferredQueries.Notify(onError, Thrown(CacheMiss))
        else [];
      Run([ReadLocalSource(cache)] + notified, Ran)
  }

  /**
   * `run()` as the CACHE_FIRST documentation describes it: a miss under
   * CACHE_FIRST makes the request. Every other case is as written.
   */
  function DocumentedRunQuery(policy: int, call: Call, cache: CacheRef, stored: Option<Payload>, networkCallback: CallbackId,
                              onSuccess: Option<ConsumerRef>, onError: Option<ConsumerRef>): (r: Run)
    ensures AccessCache(policy) <==> r.events != [] && r.events[0] == ReadLocalSource(cache)
    ensures Fetches(r) <==> (policy == CacheNone || (policy == CacheFirst && stored.None?)) && !call.executed && !call.canceled
    ensures policy == CacheFirst && stored.None? ==> r.events[1..] == Fetch(call, networkCallback).events
    ensures policy in {CacheNone, CacheFirst, CacheOnly} && onSuccess.Some? && onError.Some? ==> !Silent(r)
    ensures Notifications(r.events) <= 1
  {
    if policy == CacheFirst && stored.None? then
      var fetched := Fetch(call, networkCallback);
      var r := Run([ReadLocalSource(cache)] + fetched.events, fetched.result);
      assert fetched.result.Ran? ==> r.events[1].CollapserEnqueue?;
      r
    else
      var r := RunQuery(policy, call, cache, stored, networkCallback, onSuccess, onError);
      assert AccessCache(policy) && (if stored.Some? then onSuccess.Some? else policy == CacheOnly && onError.Some?) ==> r.events[1].Accepted?;
      r
  }

  /**
   * The code and its documentation disagree exactly on a CACHE_FIRST miss: there
   * the written query is silent even when both consumers are set, and the
   * documented one fetches (or throws for a used call).
   */
  lemma CacheFirstMissIsTheOnlyDeviation(policy: int, call: Call, cache: CacheRef, stored: Option<Payload>, networkCallback: CallbackId,
                                         onSuccess: Option<ConsumerRef>, onError: Option<ConsumerRef>)
    ensures var written := RunQuery(policy, call, cache, stored, networkCallback, onSuccess, onError);
      var documented := DocumentedRunQuery(policy, call, cache, stored, networkCallback, onSuccess, onError);
      && (written != documented <==> policy == CacheFirst && stored.None?)
      && (policy == CacheFirst && stored.None? ==> Silent(written) && !Silent(documented))
  {
  }

  /**
   * The anonymous NetworkCallback of `fetchData`, given what the collapser
   * delivers to it. A 2xx response is stored through the strategy and then goes
   * to the success consumer; any other response becomes a NetworkResourceException
   * for the query's URL with the response's code; a transport failure is
   * forwarded unchanged. A handled auth error does nothing (the default
   * `handleAuthError` is empty, and the default `isAuthError` never selects it).
   */
  function NetworkCallbackEvents(call: Call, cache: CacheRef, outcome: Outcome,
                                 onSuccess: Option<ConsumerRef>, onError: Option<ConsumerRef>): (events: seq<Event>)
    ensures outcome.Responded? && IsSuccessful(outcome.response) ==>
      events == [ConsumeRemoteSource(outcome.response.body, cache)] + DeferredQueries.Notify(onSuccess, Data(outcome.response.body))
    ensures outcome.Responded? && !IsSuccessful(outcome.response) ==>
      events == DeferredQueries.Notify(onError, Thrown(NetworkResource(call.url, outcome.response.code)))
    ensures outcome.Failed? ==> events == DeferredQueries.Notify(onError, Thrown(outcome.cause))
    ensures Notifications(events) <= 1
  {
    Callbacks.DefaultDispatchSplitsOnSuccess(outcome);
    match Callbacks.Handle(Callbacks.DefaultIsAuthError, outcome)
    case OnResponseSuccessful(data) =>
      [ConsumeRemoteSource(data, cache)] + DeferredQueries.Notify(onSuccess, Data(data))
    case OnResponseFailed(_, code) =>
      DeferredQueries.Notify(onError, Thrown(NetworkResource(call.url, code)))
    case OnCallFailure(t) =>
      DeferredQueries.Notify(onError, Thrown(t))
    case HandleAuthError(_) =>
      []
  }

  /**
   * Two CACHE_NONE queries for GETs to one URL, each with its own cache and
   * consumers, run while no GET to it is in flight. They share one dispatch:
   * the first query's call, which is the only one started. When it returns a
   * 2xx response, both network callbacks receive it in run order, and each query
   * stores the body in its own cache and hands it to its own success consumer.
   */
  lemma TwoNetworkQueriesShareOneDispatch(s: Collapsing.Collapser, response: Response,
                                         first: Call, firstCache: CacheRef, firstStored: Option<Payload>, firstCallback: CallbackId,
                                         firstOnSuccess: Option<ConsumerRef>, firstOnError: Option<ConsumerRef>,
                                         second: Call, secondCache: CacheRef, secondStored: Option<Payload>, secondCallback: CallbackId,
                                         secondOnSuccess: Option<ConsumerRef>, secondOnError: Option<ConsumerRef>)
    requires first.url !in s.queues
    requires Collapsing.IsGetCall(first) && Collapsing.IsGetCall(second) && second.url == first.url
    requires !first.executed && !first.canceled && !second.executed && !second.canceled
    requires IsSuccessful(response)
    ensures RunQuery(CacheNone, first, firstCache, firstStored, firstCallback, firstOnSuccess, firstOnError)
         == Run([CollapserEnqueue(first, firstCallback)], Ran)
    ensures RunQuery(CacheNone, second, secondCache, secondStored, secondCallback, secondOnSuccess, secondOnError)
         == Run([CollapserEnqueue(second, secondCallback)], Ran)
    ensures Collapsing.StartsCall(s, first) && !Collapsing.StartsCall(Collapsing.Enqueued(s, first, firstCallback), second)
    ensures var c := Collapsing.Completed(Collapsing.Enqueued(Collapsing.Enqueued(s, first, firstCallback), second, secondCallback),
                                          first, Responded(response));
      && c.dispatched == s.dispatched + [Collapsing.Collapsing(first)]
      && c.delivered == s.delivered + [Collapsing.Delivery(firstCallback, first, Responded(response)),
                                       Collapsing.Delivery(secondCallback, first, Responded(response))]
      && first.url !in c.queues
      && NetworkCallbackEvents(first, firstCache, c.delivered[|s.delivered|].outcome, firstOnSuccess, firstOnError)
         == [ConsumeRemoteSource(response.body, firstCache)] + DeferredQueries.Notify(firstOnSuccess, Data(response.body))
      && NetworkCallbackEvents(second, secondCache, c.delivered[|s.delivered| + 1].outcome, secondOnSuccess, secondOnError)
         == [ConsumeRemoteSource(response.body, secondCache)] + DeferredQueries.Notify(secondOnSuccess, Data(response.body))
  {
  }

  /**
   * With a TimeResolveQueryStrategy, a CACHE_FIRST query within the refresh
   * delta of the last refresh answers from the clean read and never uses the
   * network; past the delta the strategy invalidates and reports a miss, so the
   * written query is silent while the documented one fetches.
   */
  lemma TimeResolvedCacheFirst(strategy: TimeResolution.Strategy, now: int, call: Call, cache: CacheRef, clean: Payload,
                               networkCallback: CallbackId, onSuccess: Option<ConsumerRef>, onError: Option<ConsumerRef>)
    ensures var read := TimeResolution.LocalRead(strategy, cache, now, Some(clean));
      && (!TimeResolution.ShouldInvalidateCache(strategy, now) ==>
            var r := RunQuery(CacheFirst, call, cache, read.value, networkCallback, onSuccess, onError);
            r.events == [ReadLocalSource(cache)] + DeferredQueries.Notify(onSuccess, Data(clean)) && !Fetches(r))
      && (TimeResolution.ShouldInvalidateCache(strategy, now) ==>
            && Silent(RunQuery(CacheFirst, call, cache, read.value, networkCallback, onSuccess, onError))
            && read.after.hooks == strategy.hooks + [TimeResolution.Invalidate(cache)]
            && (!call.executed && !call.canceled ==>
                  DocumentedRunQuery(CacheFirst, call, cache, read.value, networkCallback, onSuccess, onError).events
                  == [ReadLocalSource(cache), CollapserEnqueue(call, networkCallback)]))
  {
  }

  /**
   * The outcome of invoking the three-argument callback overload
   * `query(call, strategy, callback)`: the query's run, or the
   * StackOverflowError of unbounded self-invocation.
   */
  datatype Invocation = Returned(run: Run) | StackOverflow

  /**
   * The three-argument callback overload as written: it invokes itself with
   * the same arguments. `stackDepth` is the number of frames the thread still
   * has room for.
   */
  function CallbackQueryAsWritten(stackDepth: nat, defaultAccessPolicy: int, call: Call, cache: CacheRef,
                                  stored: Option<Payload>, callback: nat, networkCallback: CallbackId): Invocation
    decreases stackDepth
  {
    if stackDepth == 0 then StackOverflow
    else CallbackQueryAsWritten(stackDepth - 1, defaultAccessPolicy, call, cache, stored, callback, networkCallback)
  }

  /** However deep the stack, the overload as written never runs a query: it overflows. */
  lemma {:induction false} CallbackQueryAsWrittenOverflows(stackDepth: nat, defaultAccessPolicy: int, call: Call, cache: CacheRef,
                                                          stored: Option<Payload>, callback: nat, networkCallback: CallbackId)
    ensures CallbackQueryAsWritten(stackDepth, defaultAccessPolicy, call, cache, stored, callback, networkCallback) == StackOverflow
    decreases stackDepth
  {
    if stackDepth > 0 {
      CallbackQueryAsWrittenOverflows(stackDepth - 1, defaultAccessPolicy, call, cache, stored, callback, networkCallback);
    }
  }

  /** The run of the four-argument overload: the query with the callback's two method references as consumers. */
  function CallbackQuery(policy: int, call: Call, cache: CacheRef, stored: Option<Payload>, callback: nat,
                         networkCallback: CallbackId): (r: Run)
    ensures Notifications(r.events) <= 1
    ensures forall i :: 0 <= i < |r.events| && r.events[i].Accepted? ==>
      (r.events[i].item.Data? ==> r.events[i].consumer == CallbackOnSuccess(callback))
      && (r.events[i].item.Thrown? ==> r.events[i].consumer == CallbackOnError(callback))
    ensures policy == CacheOnly && stored.None? ==> r.events == [ReadLocalSource(cache), Accepted(CallbackOnError(callback), Thrown(CacheMiss))]
    ensures AccessCache(policy) && stored.Some? ==> r.events == [ReadLocalSource(cache), Accepted(CallbackOnSuccess(callback), Data(stored.value))]
  {
    var r := RunQuery(policy, call, cache, stored, networkCallback, Some(CallbackOnSuccess(callback)), Some(CallbackOnError(callback)));
    assert AccessCache(policy) ==> r.events == [r.events[0]] + r.events[1..];
    r
  }

  /**
   * The deferred query built by `query(policy, call, queryStrategy)`. Its
   * collapser is the repository's, shared by every query of every repository.
   */
  class Query {
    const policy: int
    /** The query's call; its flags change when the collapser starts it. */
    var call: Call
    const cache: CacheRef
    const collapser: Collapsing.BaseCallCollapser
    var successConsumer: Option<ConsumerRef>
    var errorConsumer: Option<ConsumerRef>
    /** The events this query has produced so far, in order. */
    var trace: seq<Event>

    constructor (policy: int, call: Call, cache: CacheRef, collapser: Collapsing.BaseCallCollapser)
      ensures this.policy == policy && this.call == call && this.cache == cache && this.collapser == collapser
      ensures successConsumer.None? && errorConsumer.None? && trace == []
    {
      this.policy := policy;
      this.call := call;
      this.cache := cache;
      this.collapser := collapser;
      successConsumer := None;
      errorConsumer := None;
      trace := [];
    }

    /** `onSuccess(consumer)`: store the consumer, return the same instance. */
    method OnSuccess(consumer: ConsumerRef) returns (self: Query)
      modifies this`successConsumer
      ensures self == this && successConsumer == Some(consumer)
    {
      successConsumer := Some(consumer);
      self := this;
    }

    /** `onError(consumer)`: store the consumer, return the same instance. */
    method OnError(consumer: ConsumerRef) returns (self: Query)
      modifies this`errorConsumer
      ensures self == this && errorConsumer == Some(consumer)
    {
      errorConsumer := Some(consumer);
      self := this;
    }

    /** `doOnSuccess(data)`. */
    method DoOnSuccess(data: Payload)
      modifies this`trace
      ensures trace == old(trace) + DeferredQueries.Notify(successConsumer, Data(data))
    {
      if successConsumer.Some? {
        trace := trace + [Accepted(successConsumer.value, Data(data))];
      }
    }

    /** `doOnError(throwable)`. */
    method DoOnError(throwable: Throwable)
      modifies this`trace
      ensures trace == old(trace) + DeferredQueries.Notify(errorConsumer, Thrown(throwable))
    {
      if errorConsumer.Some? {
        trace := trace + [Accepted(errorConsumer.value, Thrown(throwable))];
      }
    }

    /**
     * `run()`: `stored` is what `queryStrategy.readLocalSource(cache)` returns
     * and `networkCallback` the identity of the callback `fetchData` creates.
     * A run that makes the collapser dispatch the call leaves it executed, so a
     * later run of the same query is rejected by `fetchData`.
     */
    method Run(stored: Option<Payload>, networkCallback: CallbackId) returns (result: RunResult)
      requires collapser.Valid()
      modifies this`trace, this`call, collapser
      ensures collapser.Valid()
      ensures var r := RunQuery(policy, old(call), cache, stored, networkCallback, successConsumer, errorConsumer);
        && trace == old(trace) + r.events && result == r.result
        && call == CallAfterRun(r, old(call), old(collapser.State()))
        && collapser.State() == if Fetches(r) then Collapsing.Enqueued(old(collapser.State()), old(call), networkCallback)
                                else old(collapser.State())
    {
      if !AccessCache(policy) {
        result := FetchData(networkCallback);
        return;
      }
      trace := trace + [ReadLocalSource(cache)];
      var cachedData := stored;
      if cachedData.Some? {
        DoOnSuccess(cachedData.value);
      } else if policy == CacheOnly {
        DoOnError(CacheMiss);
      }
      result := Ran;
    }

    /**
     * `fetchData(call, queryStrategy, this)`: reject a used call, else hand it to
     * the collapser. The collapser's `call.enqueue` starts the call when it
     * dispatches it; the query's copy of the call records that.
     */
    method FetchData(networkCallback: CallbackId) returns (result: RunResult)
      requires collapser.Valid()
      modifies this`trace, this`call, collapser
      ensures collapser.Valid()
      ensures var r := Fetch(old(call), networkCallback);
        && trace == old(trace) + r.events && result == r.result
        && call == CallAfterRun(r, old(call), old(collapser.State()))
      ensures collapser.State() == if result.Ran? then Collapsing.Enqueued(old(collapser.State()), old(call), networkCallback)
        else old(collapser.State())
    {
      if call.executed || call.canceled {
        return IllegalState;
      }
      var starts := Collapsing.StartsCall(collapser.State(), call);
      var _ := collapser.Enqueue(call, networkCallback);
      trace := trace + [CollapserEnqueue(call, networkCallback)];
      if starts {
        call := call.(executed := true);
      }
      result := Ran;
    }

    /** The network callback's `onResponseSuccessful(data)`. */
    method OnResponseSuccessful(data: Payload)
      modifies this`trace
      ensures trace == old(trace) + [ConsumeRemoteSource(data, cache)] + DeferredQueries.Notify(successConsumer, Data(data))
    {
      trace := trace + [ConsumeRemoteSource(data, cache)];
      DoOnSuccess(data);
    }

    /** The network callback's `onResponseFailed(errorBody, code)`. */
    method OnResponseFailed(errorBody: Payload, code: int)
      modifies this`trace
      ensures trace == old(trace) + DeferredQueries.Notify(errorConsumer, Thrown(NetworkResource(call.url, code)))
    {
      DoOnError(NetworkResource(call.url, code));
    }

    /** The network callback's `onCallFailure(throwable)`. */
    method OnCallFailure(throwable: Throwable)
      modifies this`trace
      ensures trace == old(trace) + DeferredQueries.Notify(errorConsumer, Thrown(throwable))
    {
      DoOnError(throwable);
    }

    /** The collapser delivers `outcome` to this query's network callback (NetworkCallback's dispatch). */
    method Deliver(outcome: Outcome)
      modifies this`trace
      ensures trace == old(trace) + NetworkCallbackEvents(call, cache, outcome, successConsumer, errorConsumer)
    {
      match Callbacks.Handle(Callbacks.DefaultIsAuthError, outcome)
      case OnResponseSuccessful(data) => OnResponseSuccessful(data);
      case OnResponseFailed(errorBody, code) => OnResponseFailed(errorBody, code);
      case OnCallFailure(t) => OnCallFailure(t);
      case HandleAuthError(_) =>
    }
  }

  class Repository {
    const cache: CacheRef
    const defaultAccessPolicy: int
    const callCollapser: Collapsing.BaseCallCollapser

    /** `Repository(cache, defaultAccessPolicy)`; `collapser` is the process-wide collapser instance. */
    constructor (cache: CacheRef, defaultAccessPolicy: int, collapser: Collapsing.BaseCallCollapser)
      ensures this.cache == cache && this.defaultAccessPolicy == defaultAccessPolicy && callCollapser == collapser
    {
      this.cache := cache;
      this.defaultAccessPolicy := defaultAccessPolicy;
      callCollapser := collapser;
    }

    /** `Repository(cache)`: the default access policy, CACHE_FIRST. */
    constructor WithDefaultPolicy(cache: CacheRef, collapser: Collapsing.BaseCallCollapser)
      ensures this.cache == cache && defaultAccessPolicy == DefaultAccessPolicy && callCollapser == collapser
    {
      this.cache := cache;
      defaultAccessPolicy := DefaultAccessPolicy;
      callCollapser := collapser;
    }

    /** `query(policy, call, queryStrategy)`: a new, unconfigured query; nothing runs yet. */
    method QueryWith(policy: int, call: Call) returns (q: Query)
      ensures fresh(q)
      ensures q.policy == policy && q.call == call && q.cache == cache && q.collapser == callCollapser
      ensures q.successConsumer.None? && q.errorConsumer.None? && q.trace == []
    {
      q := new Query(policy, call, cache, callCollapser);
    }

    /** `query(call, queryStrategy)`: the same with the repository's default policy. */
    method QueryDefault(call: Call) returns (q: Query)
      ensures fresh(q)
      ensures q.policy == defaultAccessPolicy && q.call == call && q.cache == cache && q.collapser == callCollapser
      ensures q.successConsumer.None? && q.errorConsumer.None? && q.trace == []
    {
      q := QueryWith(defaultAccessPolicy, call);
    }

    /**
     * `query(policy, call, queryStrategy, callback)`: build the query, set the
     * callback's two methods as consumers and run it. The query is returned so
     * that its later notifications can be observed.
     */
    method QueryWithCallback(policy: int, call: Call, stored: Option<Payload>, callback: nat, networkCallback: CallbackId)
      returns (q: Query, result: RunResult)
      requires callCollapser.Valid()
      modifies callCollapser
      ensures fresh(q) && q.policy == policy && q.cache == cache && q.collapser == callCollapser
      ensures q.successConsumer == Some(CallbackOnSuccess(callback)) && q.errorConsumer == Some(CallbackOnError(callback))
      ensures var r := CallbackQuery(policy, call, cache, stored, callback, networkCallback);
        && q.trace == r.events && result == r.result
        && q.call == CallAfterRun(r, call, old(callCollapser.State()))
        && callCollapser.State() == if Fetches(r) then Collapsing.Enqueued(old(callCollapser.State()), call, networkCallback)
                                    else old(callCollapser.State())
      ensures callCollapser.Valid()
    {
      q := QueryWith(policy, call);
      var self := q.OnSuccess(CallbackOnSuccess(callback));
      self := self.OnError(CallbackOnError(callback));
      result := self.Run(stored, networkCallback);
    }

    /**
     * `query(call, queryStrategy, callback)` as its documentation describes it:
     * the four-argument overload with the repository's default policy.
     */
    method QueryDefaultWithCallback(call: Call, stored: Option<Payload>, callback: nat, networkCallback: CallbackId)
      returns (q: Query, result: RunResult)
      requires callCollapser.Valid()
      modifies callCollapser
      ensures fresh(q) && q.policy == defaultAccessPolicy && q.cache == cache && q.collapser == callCollapser
      ensures q.successConsumer == Some(CallbackOnSuccess(callback)) && q.errorConsumer == Some(CallbackOnError(callback))
      ensures var r := CallbackQuery(defaultAccessPolicy, call, cache, stored, callback, networkCallback);
        && q.trace == r.events && result == r.result
        && q.call == CallAfterRun(r, call, old(callCollapser.State()))
        && callCollapser.State() == if Fetches(r) then Collapsing.Enqueued(old(callCollapser.State()), call, networkCallback)
                                    else old(callCollapser.State())
      ensures callCollapser.Valid()
    {
      q, result := QueryWithCallback(defaultAccessPolicy, call, stored, callback, networkCallback);
    }
  }

  /**
   * A query that fetches, run twice: the first run hands the call to the
   * collapser, which dispatches and so starts it; the second run is rejected by
   * `fetchData` with IllegalStateException and leaves the collapser as it was.
   */
  method RunTwice(q: Query, stored: Option<Payload>, first: CallbackId, second: CallbackId)
    returns (firstResult: RunResult, secondResult: RunResult)
    requires q.collapser.Valid()
    requires q.policy == CacheNone && !q.call.executed && !q.call.canceled
    requires Collapsing.StartsCall(q.collapser.State(), q.call)
    modifies q`trace, q`call, q.collapser
    ensures firstResult == Ran && secondResult == IllegalState
    ensures q.call == old(q.call).(executed := true)
    ensures q.trace == old(q.trace) + [CollapserEnqueue(old(q.call), first)]
    ensures q.collapser.State() == Collapsing.Enqueued(old(q.collapser.State()), old(q.call), first)
  {
    firstResult := q.Run(stored, first);
    secondResult := q.Run(stored, second);
  }
}
