/**
 * RetrofitServices: holds one Retrofit instance and a memo of the service
 * proxies created from it, one per service class. `init` (re)builds the
 * Retrofit instance and empties the memo; `getService` fails before the first
 * `init`, returns the memoised proxy when there is one, and otherwise creates,
 * stores and returns a new proxy.
 *
 * Building Retrofit is opaque: `init` receives the identity of the instance it
 * builds. `Retrofit.create` is modelled as producing a new proxy object, told
 * apart from every earlier one by its creation serial.
 */
module Services {
  import opened Wrappers

  /** A service interface, named by its class. */
  type ServiceClass = string

  /** A proxy made by `Retrofit.create(clazz)` on the Retrofit instance `retrofit`. */
  datatype ServiceProxy = ServiceProxy(clazz: ServiceClass, retrofit: nat, serial: nat)

  /** The RuntimeException of a lookup before `init`. */
  datatype ServicesError = NotInitialized

  /** The object's state: the Retrofit instance (None before `init`), the memo, and every proxy created so far. */
  datatype Registry = Registry(retrofit: Option<nat>, services: map<ServiceClass, ServiceProxy>, created: seq<ServiceProxy>)

  /**
   * The memo's invariant: every stored proxy is for its own class, was made by
   * the current Retrofit instance, and is one of the created proxies; proxies
   * carry their creation index; nothing is stored before `init`.
   */
  ghost predicate Memoised(r: Registry)
  {
    && (r.retrofit.None? ==> r.services == map[])
    && (forall c :: c in r.services ==>
          r.services[c].clazz == c && Some(r.services[c].retrofit) == r.retrofit && r.services[c] in r.created)
    && (forall i :: 0 <= i < |r.created| ==> r.created[i].serial == i)
  }

  /** A fresh object: not initialised, nothing created. */
  function Empty(): (r: Registry)
    ensures Memoised(r)
  {
    Registry(None, map[], [])
  }

  /** `isInitialized()`: `init` has run at least once. */
  predicate HasRetrofit(r: Registry)
  {
    r.retrofit.Some?
  }

  /** `init()`, where `built` is the Retrofit instance it builds. */
  function Initialised(r: Registry, built: nat): (r': Registry)
    ensures HasRetrofit(r') && r'.retrofit == Some(built)
    ensures r'.services == map[]
    ensures r'.created == r.created
    ensures Memoised(r) ==> Memoised(r')
  {
    Registry(Some(built), map[], r.created)
  }

  /** What a lookup returned, and the state afterwards. */
  datatype Lookup = Lookup(service: Result<ServiceProxy, ServicesError>, after: Registry)

  /** `getService(clazz)`. */
  function ServiceLookup(r: Registry, clazz: ServiceClass): (l: Lookup)
    ensures l.service.Failure? <==> !HasRetrofit(r)
    ensures !HasRetrofit(r) ==> l.after == r
    ensures HasRetrofit(r) && clazz in r.services ==> l == Lookup(Success(r.services[clazz]), r)
    ensures HasRetrofit(r) && clazz !in r.services ==>
      && l.service.Success?
      && l.service.value.clazz == clazz && l.service.value.retrofit == r.retrofit.value
      && l.after.retrofit == r.retrofit
      && l.after.services == r.services[clazz := l.service.value]
      && l.after.created == r.created + [l.service.value]
    ensures Memoised(r) && clazz !in r.services ==> l.service.Success? ==> l.service.value !in r.created
    ensures Memoised(r) ==> Memoised(l.after)
    ensures Memoised(r) && l.service.Success? ==> l.after.services[clazz] == l.service.value
  {
    if !HasRetrofit(r) then
      Lookup(Failure(NotInitialized), r)
    else if clazz in r.services then
      Lookup(Success(r.services[clazz]), r)
    else
      var proxy := ServiceProxy(clazz, r.retrofit.value, |r.created|);
      Lookup(Success(proxy), Registry(r.retrofit, r.services[clazz := proxy], r.created + [proxy]))
  }

  /**
   * Memoisation: after `init`, two lookups of one class return the same proxy,
   * and only the first creates one; any lookup in between for another class
   * does not disturb it.
   */
  lemma RepeatedLookupReturnsSameProxy(r: Registry, clazz: ServiceClass, other: ServiceClass)
    requires Memoised(r) && HasRetrofit(r)
    ensures var first := ServiceLookup(r, clazz);
      var between := ServiceLookup(first.after, other);
      var second := ServiceLookup(between.after, clazz);
      && second.service == first.service
      && |second.after.created| == |r.created| + (if clazz in r.services then 0 else 1)
                                                + (if other in r.services || other == clazz then 0 else 1)
  {
  }

  /**
   * Re-initialising resets the memo: the next lookup of a class creates a new
   * proxy on the new Retrofit instance, different from the one returned before.
   */
  lemma InitResetsMemo(r: Registry, clazz: ServiceClass, built: nat)
    requires Memoised(r) && HasRetrofit(r)
    ensures var before := ServiceLookup(r, clazz);
      var after := ServiceLookup(Initialised(before.after, built), clazz);
      && after.service.Success? && after.service.value.retrofit == built
      && after.service.value != before.service.value
      && after.service.value !in before.after.created
  {
  }

  /** The services holder; subclasses supply the endpoint and client configuration. */
  class RetrofitServices {
    var retrofit: Option<nat>
    var services: map<ServiceClass, ServiceProxy>
    /** Every proxy created so far, in creation order. */
    var created: seq<ServiceProxy>

    function State(): Registry
      reads this
    {
      Registry(retrofit, services, created)
    }

    ghost predicate Valid()
      reads this
    {
      Memoised(State())
    }

    constructor ()
      ensures Valid() && State() == Empty()
    {
      retrofit := None;
      services := map[];
      created := [];
    }

    /** `init()`, where `built` is the Retrofit instance `buildRetrofitInstance()` returns. */
    method Init(built: nat)
      requires Valid()
      modifies this
      ensures Valid() && State() == Initialised(old(State()), built)
    {
      services := map[];
      retrofit := Some(built);
    }

    /** `isInitialized()`. */
    function IsInitialized(): (b: bool)
      reads this
      ensures b <==> HasRetrofit(State())
    {
      retrofit != None
    }

    /** `getService(clazz)`. */
    method GetService(clazz: ServiceClass) returns (service: Result<ServiceProxy, ServicesError>)
      requires Valid()
      modifies this
      ensures Valid() && Lookup(service, State()) == ServiceLookup(old(State()), clazz)
    {
      if !IsInitialized() {
        return Failure(NotInitialized);
      }
      if clazz in services {
        return Success(services[clazz]);
      }
      var proxy := ServiceProxy(clazz, retrofit.value, |created|);
      created := created + [proxy];
      services := services[clazz := proxy];
      service := Success(proxy);
    }
  }
}
