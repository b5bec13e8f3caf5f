/**
 * TimeResolveQueryStrategy: a query strategy whose local reads are gated by the
 * time elapsed since the last remote refresh. A read once `refreshDeltaInMillis`
 * or more has elapsed invalidates the cache and reports a miss; an earlier read
 * delegates to the subclass's clean read. Consuming remote data restarts the
 * clock. The clock is the explicit parameter `now` (milliseconds).
 *
 * The subclass hooks (invalidate, cleanReadLocalSource, refresh) are recorded
 * in order as `Hook`s; what cleanReadLocalSource returns is a parameter.
 */
module TimeResolution {
  import opened Wrappers
  import opened Types

  /** The initial value of DEFAULT_REFRESH_DELTA_TIME: one hour in milliseconds. */
  const DefaultRefreshDeltaTime: int := 60 * 60 * 1000

  /** A call into one of the subclass's hooks. */
  datatype Hook = Invalidate(cache: CacheRef) | CleanRead(cache: CacheRef) | Refresh(data: Payload, cache: CacheRef)

  /** The strategy's state: the last refresh moment, the fixed delta and the hooks called so far. */
  datatype Strategy = Strategy(lastRefreshMoment: int, refreshDeltaInMillis: int, hooks: seq<Hook>)

  /** `shouldInvalidateCache()` at time `now`: elapsed time has reached the delta. */
  predicate ShouldInvalidateCache(s: Strategy, now: int): (stale: bool)
    ensures stale <==> now >= s.lastRefreshMoment + s.refreshDeltaInMillis
  {
    now - s.lastRefreshMoment >= s.refreshDeltaInMillis
  }

  /** A strategy built at time `now`: nothing called yet, last refresh is `now`. */
  function Created(refreshDeltaInMillis: int, now: int): (s: Strategy)
    ensures s.refreshDeltaInMillis == refreshDeltaInMillis && s.hooks == []
    ensures forall t :: now <= t < now + refreshDeltaInMillis ==> !ShouldInvalidateCache(s, t)
    ensures ShouldInvalidateCache(s, now + refreshDeltaInMillis)
  {
    Strategy(now, refreshDeltaInMillis, [])
  }

  /** The value a read returned and the strategy afterwards. */
  datatype Read = Read(value: Option<Payload>, after: Strategy)

  /**
   * `readLocalSource(cache)` at time `now`, where `clean` is what
   * `cleanReadLocalSource(cache)` would return.
   */
  function LocalRead(s: Strategy, cache: CacheRef, now: int, clean: Option<Payload>): (r: Read)
    ensures r.after.lastRefreshMoment == s.lastRefreshMoment
    ensures r.after.refreshDeltaInMillis == s.refreshDeltaInMillis
    ensures ShouldInvalidateCache(s, now) ==> r.value.None? && r.after.hooks == s.hooks + [Invalidate(cache)]
    ensures !ShouldInvalidateCache(s, now) ==> r.value == clean && r.after.hooks == s.hooks + [CleanRead(cache)]
  {
    if ShouldInvalidateCache(s, now) then
      Read(None, s.(hooks := s.hooks + [Invalidate(cache)]))
    else
      Read(clean, s.(hooks := s.hooks + [CleanRead(cache)]))
  }

  /** `consumeRemoteSource(data, cache)` at time `now`: restart the clock, then refresh. */
  function RemoteConsumed(s: Strategy, data: Payload, cache: CacheRef, now: int): (r: Strategy)
    ensures r.lastRefreshMoment == now && r.refreshDeltaInMillis == s.refreshDeltaInMillis
    ensures r.hooks == s.hooks + [Refresh(data, cache)]
    ensures forall t :: now <= t < now + s.refreshDeltaInMillis ==> !ShouldInvalidateCache(r, t)
    ensures ShouldInvalidateCache(r, now + s.refreshDeltaInMillis)
  {
    Strategy(now, s.refreshDeltaInMillis, s.hooks + [Refresh(data, cache)])
  }

  /**
   * After consuming remote data at time t, a read at t' with t <= t' < t + delta
   * returns the clean read and does not invalidate.
   */
  lemma FreshAfterConsume(s: Strategy, data: Payload, cache: CacheRef, now: int, later: int, readCache: CacheRef, clean: Option<Payload>)
    requires now <= later < now + s.refreshDeltaInMillis
    ensures var r := LocalRead(RemoteConsumed(s, data, cache, now), readCache, later, clean);
      && r.value == clean
      && r.after.hooks == s.hooks + [Refresh(data, cache), CleanRead(readCache)]
  {
  }

  /** Successive reads of one cache at the given moments. */
  function LocalReads(s: Strategy, cache: CacheRef, moments: seq<int>, clean: Option<Payload>): Strategy
    decreases |moments|
  {
    if moments == [] then s
    else LocalReads(LocalRead(s, cache, moments[0], clean).after, cache, moments[1..], clean)
  }

  /** `n` copies of the invalidation hook. */
  function Invalidations(cache: CacheRef, n: nat): seq<Hook>
  {
    seq(n, i => Invalidate(cache))
  }

  /**
   * Reads never move the refresh moment, so once stale every read invalidates
   * again: k stale reads call `invalidate` k times and leave the clock alone.
   */
  lemma {:induction false} StaleReadsInvalidateEachTime(s: Strategy, cache: CacheRef, moments: seq<int>, clean: Option<Payload>)
    requires forall i :: 0 <= i < |moments| ==> ShouldInvalidateCache(s, moments[i])
    ensures LocalReads(s, cache, moments, clean).lastRefreshMoment == s.lastRefreshMoment
    ensures LocalReads(s, cache, moments, clean).hooks == s.hooks + Invalidations(cache, |moments|)
    decreases |moments|
  {
    if moments != [] {
      var next := LocalRead(s, cache, moments[0], clean).after;
      assert forall i :: 0 <= i < |moments[1..]| ==> ShouldInvalidateCache(next, moments[1..][i]) by {
        forall i | 0 <= i < |moments[1..]| ensures ShouldInvalidateCache(next, moments[1..][i]) {
          assert moments[1..][i] == moments[i + 1];
        }
      }
      StaleReadsInvalidateEachTime(next, cache, moments[1..], clean);
      assert next.hooks + Invalidations(cache, |moments| - 1) == s.hooks + Invalidations(cache, |moments|);
    }
  }

  /** The strategy object; subclasses supply the hooks. */
  class TimeResolveQueryStrategy {
    var lastRefreshMoment: int
    const refreshDeltaInMillis: int
    var hooks: seq<Hook>

    function State(): Strategy
      reads this
    {
      Strategy(lastRefreshMoment, refreshDeltaInMillis, hooks)
    }

    /** `TimeResolveQueryStrategy(refreshDeltaInMillis)`, built at time `now`. */
    constructor (refreshDeltaInMillis: int, now: int)
      ensures State() == Created(refreshDeltaInMillis, now)
    {
      this.refreshDeltaInMillis := refreshDeltaInMillis;
      lastRefreshMoment := now;
      hooks := [];
    }

    /** `TimeResolveQueryStrategy()`, built at time `now` with the default delta. */
    constructor WithDefaultDelta(now: int)
      ensures State() == Created(DefaultRefreshDeltaTime, now)
    {
      refreshDeltaInMillis := DefaultRefreshDeltaTime;
      lastRefreshMoment := now;
      hooks := [];
    }

    /** `readLocalSource(cache)` at time `now`. */
    method ReadLocalSource(cache: CacheRef, now: int, clean: Option<Payload>) returns (data: Option<Payload>)
      modifies this`hooks
      ensures Read(data, State()) == LocalRead(old(State()), cache, now, clean)
    {
      if ShouldInvalidateCache(State(), now) {
        hooks := hooks + [Invalidate(cache)];
        return None;
      }
      hooks := hooks + [CleanRead(cache)];
      data := clean;
    }

    /** `consumeRemoteSource(data, cache)` at time `now`. */
    method ConsumeRemoteSource(data: Payload, cache: CacheRef, now: int)
      modifies this
      ensures State() == RemoteConsumed(old(State()), data, cache, now)
    {
      UpdateRefreshMoment(now);
      hooks := hooks + [Refresh(data, cache)];
    }

    /** `updateRefreshMoment()` at time `now`. */
    method UpdateRefreshMoment(now: int)
      modifies this`lastRefreshMoment
      ensures lastRefreshMoment == now
    {
      lastRefreshMoment := now;
    }
  }
}
