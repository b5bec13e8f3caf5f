# wolmo-networking core in Dafny

This project models the client-side caching and request-deduplication layer of
the wolmo-networking Android library, and proves what that layer promises.

- **Call collapser** (`BaseCallCollapser`). Concurrent GET calls to one URL
  share a single network dispatch. Every waiting callback receives the
  leader's result, in arrival order.
- **Repository** (`Repository`, its inner `Query`, `fetchData`). A query
  consults a cache and/or the network according to an access policy
  (CACHE_NONE = 1, CACHE_FIRST = 2, CACHE_ONLY = 3). It then notifies optional
  success and error consumers.
- **Time-resolve strategy** (`TimeResolveQueryStrategy`). A cache read is fresh
  while less than a fixed delta of milliseconds has elapsed since the last
  remote refresh.
- **Deferred query holder** (`RepositoryQuery`). It holds two optional consumer
  slots, each notified only when set.
- **Response classification**. `NetworkCallback` routes a response to one of
  three handlers. `NetworkRequestHandler.safeApiCall` produces the sealed
  `NetworkResponse` result.
- **Bounded polling** (`CallUtils.pollWithDelay`).
- **Service memoisation** (`RetrofitServices`).

There is one module per modelled source file: `Collapsing`, `Repositories`,
`TimeResolution`, `DeferredQueries`, `Callbacks`, `RequestHandling`, `Polling`
and `Services`. Two further modules hold what they share and match no source
file: `Types` (calls, responses, throwables, events) and `Wrappers`
(Option/Result).

Classes whose fields the source updates in place are Dafny classes:
`BaseCallCollapser`, `Query`, `TimeResolveQueryStrategy`, `RepositoryQuery`
and `RetrofitServices`. `Repository` is a Dafny class too, for the identity of
the collapser it shares with its queries. Its fields are final in the source,
so they are `const` here.

- `BaseCallCollapser`, `TimeResolveQueryStrategy` and `RetrofitServices`
  expose their state as a value through `State()`. Each of their methods is
  proved to move that state exactly as a pure step function does: `Enqueued`,
  `Completed`, `LocalRead`, `RemoteConsumed`, `ServiceLookup`, `Initialised`.
- The query classes `Query` and `RepositoryQuery` have no `State()`. Their
  methods state the new values of their fields directly: consumers, trace
  and call.
- The properties are proved about those step functions, as their `ensures`
  and as lemmas over sequences of steps.

What the repository does is recorded as a trace of events:

- the strategy's `readLocalSource` / `consumeRemoteSource`;
- the hand-off to the collapser;
- consumer notifications.

What the strategy returns, the network's outcomes and the clock are
parameters.

## Model

| member | source | states |
|---|---|---|
| Collapsing.IsGetCall | networking/src/main/java/ar/com/wolox/wolmo/networking/optimizations/BaseCallCollapser.java:71-73 | a call is a GET exactly when its method is "GET" in any letter case |
| Collapsing.Enqueued | networking/src/main/java/ar/com/wolox/wolmo/networking/optimizations/BaseCallCollapser.java:58-69 | a non-GET is dispatched directly with its own callback and the map is unchanged. A GET appends its callback at the end of its URL's queue, created if absent, and is dispatched iff the URL had no queue. A call started before is never dispatched: Retrofit's `call.enqueue` throws, and a GET leader's callback stays queued. Other URLs' queues are unchanged; no URL ever maps to an empty queue |
| Collapsing.Fanout | networking/src/main/java/ar/com/wolox/wolmo/networking/optimizations/BaseCallCollapser.java:122-124 | draining a queue yields one notification per queued callback, in queue order, all with the same call and result |
| Collapsing.Completed | networking/src/main/java/ar/com/wolox/wolmo/networking/optimizations/BaseCallCollapser.java:118-143 | completion removes the URL's queue and leaves other URLs alone. Every queued callback gets the same result exactly once, in FIFO order, appended after earlier notifications. Nothing is dispatched |
| Collapsing.OneDispatchPerCycle | networking/src/main/java/ar/com/wolox/wolmo/networking/optimizations/BaseCallCollapser.java:64-68 | any burst of GETs to a URL with no queue produces a queue equal to the callbacks in arrival order, and at most one dispatch: the first caller's, unless that call was started before |
| Collapsing.CycleNotifiesEveryCaller | networking/src/main/java/ar/com/wolox/wolmo/networking/optimizations/BaseCallCollapser.java:58-143 | after a burst led by an unstarted call and its completion: every caller is notified once, in order, with the leader's call and result; the URL is gone; the next unstarted GET to it dispatches again; other URLs are untouched |
| Collapsing.GetAndPostBothDispatched | networking/src/main/java/ar/com/wolox/wolmo/networking/optimizations/BaseCallCollapser.java:58-69 | an unstarted GET and an unstarted POST enqueued together are both dispatched: the POST directly with its callback, the GET as leader of its queue |
| Collapsing.FollowersOnlyQueue | networking/src/main/java/ar/com/wolox/wolmo/networking/optimizations/BaseCallCollapser.java:64-67 | while a URL has a waiting queue, GETs to it only append their callbacks in arrival order and nothing is dispatched |
| Collapsing.StartedLeaderWedgesUrl | networking/src/main/java/ar/com/wolox/wolmo/networking/optimizations/BaseCallCollapser.java:58-69 | a started GET leader makes `enqueue` throw after its callback was queued. Its URL keeps that queue, every later GET to it only joins, and nothing is ever dispatched for it |
| Collapsing.BaseCallCollapser.constructor | networking/src/main/java/ar/com/wolox/wolmo/networking/optimizations/BaseCallCollapser.java:44-46 | a new collapser has no queues and has dispatched and notified nothing |
| Collapsing.BaseCallCollapser.Enqueue | networking/src/main/java/ar/com/wolox/wolmo/networking/optimizations/BaseCallCollapser.java:58-69 | the in-place enqueue moves the state exactly as `Enqueued` and keeps the no-empty-queue invariant. It reports the IllegalStateException exactly when it reaches `call.enqueue` for a call started before |
| Collapsing.BaseCallCollapser.GetQueueFromRequest | networking/src/main/java/ar/com/wolox/wolmo/networking/optimizations/BaseCallCollapser.java:83-95 | returns the URL's queue, storing a new empty one when the URL is absent |
| Collapsing.BaseCallCollapser.CollapsingEnqueue | networking/src/main/java/ar/com/wolox/wolmo/networking/optimizations/BaseCallCollapser.java:103-115 | the leader's call is dispatched once, with the collapser's own callback. A call started before is not dispatched and the exception is reported |
| Collapsing.BaseCallCollapser.ApplyToQueue | networking/src/main/java/ar/com/wolox/wolmo/networking/optimizations/BaseCallCollapser.java:118-139 | the poll loop for a success or a failure moves the state exactly as `Completed`: each queued callback is notified in FIFO order, then the queue is removed |
| Collapsing.BaseCallCollapser.RemoveQueueFromRequest | networking/src/main/java/ar/com/wolox/wolmo/networking/optimizations/BaseCallCollapser.java:141-143 | removes exactly the URL's entry |
| Repositories.Fetch | networking/src/main/java/ar/com/wolox/wolmo/networking/offline/Repository.java:207-214 | a call already executed or canceled is rejected with IllegalStateException before any enqueue. Otherwise it is handed to the collapser once. A fetch hands the call over exactly when it is not rejected |
| Repositories.AccessCache | networking/src/main/java/ar/com/wolox/wolmo/networking/offline/Repository.java:193-195 | CACHE_NONE does not consult the cache; CACHE_FIRST and CACHE_ONLY do |
| Repositories.CallAfterRun | networking/src/main/java/ar/com/wolox/wolmo/networking/optimizations/BaseCallCollapser.java:58-69 | after a run the call keeps its method, URL and canceled flag. It is executed exactly when it was before, or when the run handed it to the collapser and the collapser dispatched it: a non-GET, or a GET to a URL with no waiting queue |
| Repositories.RunQuery | networking/src/main/java/ar/com/wolox/wolmo/networking/offline/Repository.java:117-135 | CACHE_NONE never reads the cache and goes straight to `fetchData`. Any other policy reads the cache first and never fetches. A hit notifies the success consumer with the cached value. A CACHE_ONLY miss notifies the error consumer with CacheMissException. A CACHE_FIRST miss does nothing more. A run notifies at most once |
| Repositories.DocumentedRunQuery | networking/src/main/java/ar/com/wolox/wolmo/networking/offline/Repository.java:62-65 | as documented, a CACHE_FIRST miss makes the request. With both consumers set, no run under a valid policy is silent |
| Repositories.CacheFirstMissIsTheOnlyDeviation | networking/src/main/java/ar/com/wolox/wolmo/networking/offline/Repository.java:121-133 | the written run differs from the documented one exactly on a CACHE_FIRST miss, where it is silent and the documented run is not |
| Repositories.NetworkCallbackEvents | networking/src/main/java/ar/com/wolox/wolmo/networking/offline/Repository.java:214-231 | a 2xx response calls `consumeRemoteSource(body, cache)` before notifying the success consumer with the body. A non-2xx response notifies the error consumer with NetworkResourceException(URL, code) and writes no cache. A transport failure is forwarded unchanged and writes no cache. At most one notification |
| Repositories.TwoNetworkQueriesShareOneDispatch | networking/src/main/java/ar/com/wolox/wolmo/networking/offline/Repository.java:117-232 | two CACHE_NONE GET queries to one URL, each with its own cache and consumers, each run only as a hand-off to the collapser. They share one dispatch, of the first query's call; the second call is never started. On a 2xx response both network callbacks receive it in run order, and each query stores the body in its own cache and notifies its own success consumer |
| Repositories.TimeResolvedCacheFirst | networking/src/main/java/ar/com/wolox/wolmo/networking/offline/Repository.java:121-133 | with a time-resolve strategy, a fresh CACHE_FIRST read answers from the clean read without the network. A stale one invalidates, and the written query is then silent, while the documented one fetches |
| Repositories.CallbackQueryAsWrittenOverflows | networking/src/main/java/ar/com/wolox/wolmo/networking/offline/Repository.java:183-186 | the three-argument callback overload as written overflows the stack at any depth and never runs a query |
| Repositories.CallbackQuery | networking/src/main/java/ar/com/wolox/wolmo/networking/offline/Repository.java:165-171 | the four-argument overload runs the query with the callback's `onSuccess`/`onError` as consumers: data only to `onSuccess`, throwables only to `onError`, at most once |
| Repositories.Query.constructor | networking/src/main/java/ar/com/wolox/wolmo/networking/offline/Repository.java:274-279 | a new query holds its policy, call, cache and the shared collapser, with no consumers and no events |
| Repositories.Query.OnSuccess | networking/src/main/java/ar/com/wolox/wolmo/networking/offline/Repository.java:288-291 | stores the success consumer and returns the same instance |
| Repositories.Query.OnError | networking/src/main/java/ar/com/wolox/wolmo/networking/offline/Repository.java:300-303 | stores the error consumer and returns the same instance |
| Repositories.Query.DoOnSuccess | networking/src/main/java/ar/com/wolox/wolmo/networking/offline/Repository.java:305-307 | notifies the success consumer once with the data if set, otherwise nothing |
| Repositories.Query.DoOnError | networking/src/main/java/ar/com/wolox/wolmo/networking/offline/Repository.java:309-311 | notifies the error consumer once with the throwable if set, otherwise nothing |
| Repositories.Query.Run | networking/src/main/java/ar/com/wolox/wolmo/networking/offline/Repository.java:121-133 | the run's events and result are those of `RunQuery`. The collapser is enqueued exactly when the run fetches, and is otherwise unchanged. The query's call becomes executed when the collapser dispatches it (`CallAfterRun`) |
| Repositories.Query.FetchData | networking/src/main/java/ar/com/wolox/wolmo/networking/offline/Repository.java:205-214 | rejects a used call with IllegalStateException before touching the collapser; otherwise enqueues it with the new network callback, and the call is then executed if the collapser dispatched it |
| Repositories.RunTwice | networking/src/main/java/ar/com/wolox/wolmo/networking/offline/Repository.java:205-214 | a fetching query whose call the collapser dispatches, run twice: the first run hands the call over and starts it; the second is rejected with IllegalStateException and leaves the collapser, trace and call as the first run left them |
| Repositories.Query.OnResponseSuccessful | networking/src/main/java/ar/com/wolox/wolmo/networking/offline/Repository.java:216-219 | `consumeRemoteSource(data, cache)`, then `doOnSuccess(data)` |
| Repositories.Query.OnResponseFailed | networking/src/main/java/ar/com/wolox/wolmo/networking/offline/Repository.java:222-225 | `doOnError` with NetworkResourceException for the query's URL and the code |
| Repositories.Query.OnCallFailure | networking/src/main/java/ar/com/wolox/wolmo/networking/offline/Repository.java:228-230 | `doOnError` with the same throwable |
| Repositories.Query.Deliver | networking/src/main/java/ar/com/wolox/wolmo/networking/offline/Repository.java:214-231 | an outcome delivered to the query's network callback produces exactly `NetworkCallbackEvents` |
| Repositories.Repository.constructor | networking/src/main/java/ar/com/wolox/wolmo/networking/offline/Repository.java:90-94 | a repository keeps its cache, default policy and the shared collapser |
| Repositories.Repository.WithDefaultPolicy | networking/src/main/java/ar/com/wolox/wolmo/networking/offline/Repository.java:101-103 | the one-argument constructor uses CACHE_FIRST |
| Repositories.Repository.QueryWith | networking/src/main/java/ar/com/wolox/wolmo/networking/offline/Repository.java:117-135 | builds a new query for the policy, call and cache; nothing runs |
| Repositories.Repository.QueryDefault | networking/src/main/java/ar/com/wolox/wolmo/networking/offline/Repository.java:146-148 | the same with the repository's default policy |
| Repositories.Repository.QueryWithCallback | networking/src/main/java/ar/com/wolox/wolmo/networking/offline/Repository.java:165-171 | builds a query on the repository's cache and collapser, sets the callback's two methods as consumers and runs it, with the events, result, collapser effect and call flags of `CallbackQuery` |
| Repositories.Repository.QueryDefaultWithCallback | networking/src/main/java/ar/com/wolox/wolmo/networking/offline/Repository.java:183-186 | corrected overload: exactly the four-argument overload with the repository's default policy — same cache, collapser, consumers, events, result, collapser effect and call flags |
| TimeResolution.ShouldInvalidateCache | networking/src/main/java/ar/com/wolox/wolmo/networking/offline/TimeResolveQueryStrategy.java:118-120 | a strategy is stale exactly when `now` is at or past the last refresh moment plus the delta |
| TimeResolution.Created | networking/src/main/java/ar/com/wolox/wolmo/networking/offline/TimeResolveQueryStrategy.java:45-55 | a new strategy has called no hook. It is fresh for every moment before construction time + delta, and stale at exactly that moment |
| TimeResolution.LocalRead | networking/src/main/java/ar/com/wolox/wolmo/networking/offline/TimeResolveQueryStrategy.java:66-73 | when elapsed time ≥ delta, a read calls `invalidate(cache)` once and returns a miss without the clean read. Otherwise it returns `cleanReadLocalSource(cache)` and does not invalidate. A read never moves the refresh moment |
| TimeResolution.RemoteConsumed | networking/src/main/java/ar/com/wolox/wolmo/networking/offline/TimeResolveQueryStrategy.java:94-97 | consuming restarts the clock, then calls `refresh(data, cache)` once. The strategy is then fresh for delta ms and stale at the boundary |
| TimeResolution.FreshAfterConsume | networking/src/main/java/ar/com/wolox/wolmo/networking/offline/TimeResolveQueryStrategy.java:66-97 | a read within delta after a consume returns the clean read without invalidating |
| TimeResolution.StaleReadsInvalidateEachTime | networking/src/main/java/ar/com/wolox/wolmo/networking/offline/TimeResolveQueryStrategy.java:66-73 | reads never refresh the clock, so k stale reads call `invalidate` k times |
| TimeResolution.TimeResolveQueryStrategy.constructor | networking/src/main/java/ar/com/wolox/wolmo/networking/offline/TimeResolveQueryStrategy.java:53-55 | builds the state of `Created` for the given delta |
| TimeResolution.TimeResolveQueryStrategy.WithDefaultDelta | networking/src/main/java/ar/com/wolox/wolmo/networking/offline/TimeResolveQueryStrategy.java:60-62 | the default constructor uses one hour |
| TimeResolution.TimeResolveQueryStrategy.ReadLocalSource | networking/src/main/java/ar/com/wolox/wolmo/networking/offline/TimeResolveQueryStrategy.java:66-73 | returns and records exactly what `LocalRead` does |
| TimeResolution.TimeResolveQueryStrategy.ConsumeRemoteSource | networking/src/main/java/ar/com/wolox/wolmo/networking/offline/TimeResolveQueryStrategy.java:94-97 | moves the state exactly as `RemoteConsumed` |
| TimeResolution.TimeResolveQueryStrategy.UpdateRefreshMoment | networking/src/main/java/ar/com/wolox/wolmo/networking/offline/TimeResolveQueryStrategy.java:111-113 | the last refresh moment becomes now |
| DeferredQueries.Notify | networking/src/main/java/ar/com/wolox/wolmo/networking/offline/RepositoryQuery.java:23-29 | an unset slot produces no notification. A set slot produces exactly one, to that consumer with that item |
| DeferredQueries.RepositoryQuery.constructor | networking/src/main/java/ar/com/wolox/wolmo/networking/offline/RepositoryQuery.java:8-11 | a new holder has both consumers unset (`None`) and has notified nothing |
| DeferredQueries.RepositoryQuery.OnSuccess | networking/src/main/java/ar/com/wolox/wolmo/networking/offline/RepositoryQuery.java:13-16 | stores the success consumer and returns the same instance |
| DeferredQueries.RepositoryQuery.OnError | networking/src/main/java/ar/com/wolox/wolmo/networking/offline/RepositoryQuery.java:18-21 | stores the error consumer and returns the same instance |
| DeferredQueries.RepositoryQuery.DoOnSuccess | networking/src/main/java/ar/com/wolox/wolmo/networking/offline/RepositoryQuery.java:23-25 | notifies the success consumer once if set, otherwise nothing |
| DeferredQueries.RepositoryQuery.DoOnError | networking/src/main/java/ar/com/wolox/wolmo/networking/offline/RepositoryQuery.java:27-29 | notifies the error consumer once if set, otherwise nothing |
| DeferredQueries.SetTwiceKeepsLast | networking/src/main/java/ar/com/wolox/wolmo/networking/offline/RepositoryQuery.java:13-21 | setting a slot twice keeps the last consumer and leaves the other slot untouched. The next notification reaches only that consumer |
| Callbacks.OnResponse | networking/src/main/java/ar/com/wolox/wolmo/networking/retrofit/callback/NetworkCallback.java:47-55 | an auth error goes only to `handleAuthError`, even when 2xx. Otherwise a 2xx goes to `onResponseSuccessful(body)` and any other to `onResponseFailed(errorBody, code)`. Exactly one handler |
| Callbacks.Handle | networking/src/main/java/ar/com/wolox/wolmo/networking/retrofit/callback/NetworkCallback.java:47-64 | a failure goes only to `onCallFailure` with the same throwable. A response goes through `onResponse` |
| Callbacks.DefaultIsAuthError | networking/src/main/java/ar/com/wolox/wolmo/networking/retrofit/callback/NetworkCallback.java:77-79 | the default `isAuthError` reports no response as an auth error |
| Callbacks.DefaultDispatchSplitsOnSuccess | networking/src/main/java/ar/com/wolox/wolmo/networking/retrofit/callback/NetworkCallback.java:77-79 | with the default `isAuthError` the dispatch is a split on success, and `handleAuthError` is never chosen |
| RequestHandling.SafeApiCall | networking/src/main/java/ar/com/wolox/wolmo/networking/retrofit/handler/NetworkRequestHandler.kt:19-29 | `Success` iff the block returned and `isSuccessful` was true, wrapping that response. `Error` iff it was false, wrapping that response. `Failure` iff the block or the check threw, carrying that throwable |
| RequestHandling.SafeApiCallAgreesWithNetworkCallback | networking/src/main/java/ar/com/wolox/wolmo/networking/retrofit/handler/NetworkRequestHandler.kt:19-29 | with Retrofit's `isSuccessful`, the classification agrees with NetworkCallback's default dispatch, carrying the same body, code or throwable |
| Polling.Poll | networking/src/main/java/ar/com/wolox/wolmo/networking/utils/CallUtils.java:69-103 | with no tries left, there is an immediate PollRunOutOfTriesException and no enqueue. Otherwise a call executed before makes `call.enqueue` throw IllegalStateException: nothing is enqueued or notified, and only that first call can be such, since every later attempt is a fresh clone. The first enqueue is the given call. Enqueues never exceed the budget. All attempts target the same request. Once the network has answered the budget of attempts, exactly one notification has been sent |
| Polling.PollWithDelay | networking/src/main/java/ar/com/wolox/wolmo/networking/utils/CallUtils.java:56-67 | with no tries the callback fails at once with PollRunOutOfTriesException. A call executed before makes the method throw IllegalStateException with nothing enqueued or notified. Otherwise polling starts with the given call, respects the tries budget, and has notified the callback once the network has answered `tries` attempts |
| Polling.PollRunsOutOfTries | networking/src/main/java/ar/com/wolox/wolmo/networking/utils/CallUtils.java:76-95 | if the condition holds on every response: exactly `tries` enqueues and tests, then one PollRunOutOfTriesException on the last clone |
| Polling.PollStopsOnFirstRejectedResponse | networking/src/main/java/ar/com/wolox/wolmo/networking/utils/CallUtils.java:81-95 | if the condition first fails on the k-th response: exactly k enqueues, and that response goes to `onResponse` |
| Polling.PollForwardsFailure | networking/src/main/java/ar/com/wolox/wolmo/networking/utils/CallUtils.java:98-101 | a transport failure on the k-th attempt ends polling after k enqueues and is forwarded unchanged |
| Services.Empty | networking/src/main/java/ar/com/wolox/wolmo/networking/retrofit/RetrofitServices.java:47-48 | a new holder satisfies the memo invariant: not initialised, no services |
| Services.Initialised | networking/src/main/java/ar/com/wolox/wolmo/networking/retrofit/RetrofitServices.java:56-59 | `init` empties the memo, installs the newly built Retrofit, marks the object initialised and keeps the invariant |
| Services.ServiceLookup | networking/src/main/java/ar/com/wolox/wolmo/networking/retrofit/RetrofitServices.java:170-179 | before `init` it fails and changes nothing. A stored proxy is returned without creating. Otherwise one new proxy for the class on the current Retrofit is created, stored under the class key and returned. Other keys are unchanged |
| Services.RepeatedLookupReturnsSameProxy | networking/src/main/java/ar/com/wolox/wolmo/networking/retrofit/RetrofitServices.java:170-179 | two lookups of one class return the same proxy with one create, even with another lookup in between |
| Services.InitResetsMemo | networking/src/main/java/ar/com/wolox/wolmo/networking/retrofit/RetrofitServices.java:56-59 | after re-`init` the next lookup creates a new proxy on the new Retrofit, different from the earlier one |
| Services.RetrofitServices.constructor | networking/src/main/java/ar/com/wolox/wolmo/networking/retrofit/RetrofitServices.java:47-48 | a new holder is the empty registry |
| Services.RetrofitServices.Init | networking/src/main/java/ar/com/wolox/wolmo/networking/retrofit/RetrofitServices.java:56-59 | moves the state exactly as `Initialised` |
| Services.RetrofitServices.IsInitialized | networking/src/main/java/ar/com/wolox/wolmo/networking/retrofit/RetrofitServices.java:151-153 | true exactly when a Retrofit instance has been built |
| Services.RetrofitServices.GetService | networking/src/main/java/ar/com/wolox/wolmo/networking/retrofit/RetrofitServices.java:170-179 | returns and stores exactly what `ServiceLookup` does, keeping the memo invariant |

## Findings

| source | as written | input that shows it | evidently intended | confidence | as-written member | corrected member |
|---|---|---|---|---|---|---|
| networking/src/main/java/ar/com/wolox/wolmo/networking/offline/Repository.java:127-132 | a CACHE_FIRST query whose cache read misses neither fetches nor notifies | policy CACHE_FIRST, `readLocalSource` returns null, both consumers set: the run reads the cache and stops | a miss makes the request and updates the cache, as the comment at line 63 says; `networking/src/test/java/ar/com/wolox/wolmo/networking/offline/RepositoryTest.java`:94-115 expects the fetch | not executed; high | Repositories.RunQuery, Repositories.CacheFirstMissIsTheOnlyDeviation | Repositories.DocumentedRunQuery |
| networking/src/main/java/ar/com/wolox/wolmo/networking/offline/Repository.java:183-186 | `query(call, strategy, callback)` invokes itself with the same arguments | any call: the invocation recurses until StackOverflowError, and no query runs | delegate to `query(mDefaultAccessPolicy, call, strategy, callback)`, as its documentation says | not executed; high | Repositories.CallbackQueryAsWrittenOverflows | Repositories.Repository.QueryDefaultWithCallback |

## Left out

- The code and its comment disagree on a CACHE_FIRST miss. The model follows the code (`RunQuery`, `Query.Run`) and states the documented behaviour separately (`DocumentedRunQuery`).
- Thread safety: the collapser's concurrent map and `synchronized` block, and the check-then-put race outside the lock. Each enqueue and each completion is one atomic step.
- The clock. `System.currentTimeMillis()` is the parameter `now`. The `Timer`/`TimerTask` scheduling and delay conversion of polling are not modelled. The tries budget and the successive network outcomes are.
- Retrofit and OkHttp. A call is its HTTP method, URL and executed/canceled flags. A response is its code, body and error body. `Call.clone()` is a fresh, unstarted call for the same request. Calls are values. A query's own call is marked executed when the collapser dispatches it; other holders of the same Java call object do not see that flag, so aliasing between call objects is not captured.
- The query strategy interface is not an object here. What `readLocalSource` returns is the parameter `stored`. What `cleanReadLocalSource` returns is the parameter `clean`. The subclass hooks `invalidate`/`refresh` and `consumeRemoteSource` are recorded as events, not run.
- Bodies are never null in the model. A null `response.body()` reaching `onResponseSuccessful` is not modelled.
- Polling.Poll: Retrofit's IllegalStateException for a call executed before is the trace's `thrown` flag, not an exception that unwinds the caller.
- Collapsing.BaseCallCollapser.Enqueue: Retrofit's IllegalStateException for a call started before is the returned flag `thrown`, not an exception that unwinds the caller. A canceled but unstarted call is dispatched; OkHttp's later failure for it is the outcome given to `Completed`.
- Collapsing.EqualsIgnoreCase: folds ASCII letters only, not Java's full Unicode case folding. For the constant "GET" the two agree on ASCII input.
- The mutable static defaults (`DEFAULT_ACCESS_POLICY`, `DEFAULT_REFRESH_DELTA_TIME`) are fixed at their initial values. The process-wide collapser instance is a constructor parameter of `Repository`.
- TimeResolution.ShouldInvalidateCache: uses unbounded integers, so Java `long` overflow of `now - lastRefresh` is not modelled. The `@IntRange(from = 1)` annotation on the delta is lint-only and is not a precondition.
- Repositories.Repository.QueryWithCallback and Repositories.Repository.QueryDefaultWithCallback: these Java overloads return nothing. The model returns the query so its later notifications can be observed.
- Services.ServiceLookup: `buildRetrofitInstance` (endpoint, OkHttp client, converter factories, Gson) is opaque. `init` receives the identity of the instance it builds, and `Retrofit.create` yields a new proxy identified by its creation serial.
- A custom `isAuthError`/`handleAuthError` is a parameter of `Callbacks.OnResponse`. The repository's network callback uses the defaults, so an auth error is never selected there.
- `safeApiCall` is a Kotlin `suspend` function. The coroutine machinery is not modelled. The block's result (a response or a throwable) is a parameter.
- Serialisation, dependency-injection modules, interceptors and logging are not part of this model.
