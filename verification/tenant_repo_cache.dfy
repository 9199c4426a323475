/** IdxTenantRepoFactorySingleton: a process-wide cache of the vendor's repository
    factory, rebuilt when it is missing, when a different base URL is asked for,
    or when it was built more than 59 seconds ago. The static fields become the
    fields of one object; the clock is the `now` argument, in milliseconds. */
module TenantRepoCache {
  import opened Host
  import opened IdxCommon

  /** A `java.lang.String` object: its identity and its characters. The cache
      compares base URLs with `!=`, that is by identity, not by characters. */
  datatype StringObject = StringObject(identity: nat, text: string)

  /** The age, in milliseconds, beyond which a cached factory is rebuilt. */
  const MaxAgeMillis: int := 59000

  /** The condition under which `getInstance` builds a new factory. */
  predicate MustRebuild(instance: Option<TenantRepoFactory>, cachedUrl: StringObject,
                        lastBuilt: Option<int>, url: StringObject, now: int)
  {
    instance == None || url.identity != cachedUrl.identity || lastBuilt == None
    || lastBuilt.value < now - MaxAgeMillis
  }

  /** What `getInstance` answers for a cache in the given state: the new build when
      the cache must be rebuilt, the cached factory otherwise. */
  function CachedAnswer(instance: Option<TenantRepoFactory>, cachedUrl: StringObject, lastBuilt: Option<int>,
                        url: StringObject, now: int, built: Option<TenantRepoFactory>): (r: Option<TenantRepoFactory>)
    ensures r.None? <==> MustRebuild(instance, cachedUrl, lastBuilt, url, now) && built.None?
    ensures MustRebuild(instance, cachedUrl, lastBuilt, url, now) ==> r == built
    ensures !MustRebuild(instance, cachedUrl, lastBuilt, url, now) ==> r == instance && r.Some?
  {
    if MustRebuild(instance, cachedUrl, lastBuilt, url, now) then built else instance
  }

  class TenantRepoFactorySingleton {
    var instance: Option<TenantRepoFactory>
    var baseUrl: StringObject
    var lastBuilt: Option<int>

    /** The static initial values: no instance, the empty-string literal, no build time. */
    constructor (emptyLiteral: StringObject)
      requires emptyLiteral.text == ""
      ensures instance == None && baseUrl == emptyLiteral && lastBuilt == None
    {
      instance := None;
      baseUrl := emptyLiteral;
      lastBuilt := None;
    }

    /** `getInstance(baseURL)`. `built` is what constructing a new factory yields
        (`None`: the constructor threw, which leaves every field as it was). */
    method GetInstance(url: StringObject, now: int, built: Option<TenantRepoFactory>)
      returns (r: Option<TenantRepoFactory>)
      modifies this
      ensures r == CachedAnswer(old(instance), old(baseUrl), old(lastBuilt), url, now, built)
      ensures MustRebuild(old(instance), old(baseUrl), old(lastBuilt), url, now) && built.Some? ==>
                r == built && instance == built && baseUrl == url && lastBuilt == Some(now)
      ensures MustRebuild(old(instance), old(baseUrl), old(lastBuilt), url, now) && built == None ==>
                r == None && unchanged(this)
      ensures !MustRebuild(old(instance), old(baseUrl), old(lastBuilt), url, now) ==>
                r == old(instance) && r.Some? && unchanged(this)
    {
      if instance == None || url.identity != baseUrl.identity || lastBuilt == None
         || lastBuilt.value < now - MaxAgeMillis {
        if built == None {
          return None;
        }
        // the constructor records the base URL, then the instance and the time are stored
        baseUrl := url;
        instance := built;
        lastBuilt := Some(now);
      }
      r := instance;
    }
  }

  /** Once a request has built a factory, a request for the same string object at
      most 59 seconds later gets that factory, whatever a new build would produce. */
  method SameFactoryWithinMaxAge(cache: TenantRepoFactorySingleton, url: StringObject,
                                 t1: int, t2: int, b1: Option<TenantRepoFactory>, b2: Option<TenantRepoFactory>)
    returns (f1: Option<TenantRepoFactory>, f2: Option<TenantRepoFactory>)
    requires MustRebuild(cache.instance, cache.baseUrl, cache.lastBuilt, url, t1)
    requires t1 <= t2 <= t1 + MaxAgeMillis
    modifies cache
    ensures f1.Some? ==> f2 == f1
  {
    f1 := cache.GetInstance(url, t1, b1);
    f2 := cache.GetInstance(url, t2, b2);
  }

  /** A request for an equal base URL held in a different string object always rebuilds,
      however recent the cached factory is. */
  method EqualTextOtherObjectRebuilds(cache: TenantRepoFactorySingleton, url1: StringObject, url2: StringObject,
                                      t1: int, t2: int, b1: Option<TenantRepoFactory>, b2: TenantRepoFactory)
    returns (f1: Option<TenantRepoFactory>, f2: Option<TenantRepoFactory>)
    requires url1.text == url2.text && url1.identity != url2.identity
    modifies cache
    ensures f1.Some? ==> f2 == Some(b2) && cache.baseUrl == url2 && cache.lastBuilt == Some(t2)
  {
    f1 := cache.GetInstance(url1, t1, b1);
    f2 := cache.GetInstance(url2, t2, Some(b2));
  }
}
