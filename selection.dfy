/**
 * The backend-selection chain of Startup.ConfigureServices as a pure decision:
 * a first-match-wins priority over the five configuration values.
 */
module Selection {
  import opened Wrappers
  import opened Configuration

  /** The ICartStore implementations; their internals are not part of this model. */
  datatype StoreImpl = RedisCartStore | SpannerCartStore | AlloyDBCartStore

  /**
   * The IDistributedCache backend registered underneath RedisCartStore.
   * RedisCache carries what the options callback captures: the Redis address and password.
   */
  datatype CacheBackend =
    | RedisCache(address: string, password: Option<string>)
    | MemoryCache

  /** What startup decides: an optional distributed cache and exactly one cart store. */
  datatype Plan = Plan(cache: Option<CacheBackend>, store: StoreImpl)

  /** The four settings that can select a store are all null or empty. */
  predicate NoStoreConfigured(settings: Settings)
  {
    IsNullOrEmpty(Get(settings, RedisAddrKey))
    && IsNullOrEmpty(Get(settings, SpannerProjectKey))
    && IsNullOrEmpty(Get(settings, SpannerConnectionStringKey))
    && IsNullOrEmpty(Get(settings, AlloyDBPrimaryIpKey))
  }

  /** The if / else-if chain, evaluated in its fixed order. Every plan has a distributed cache
      exactly when its store is RedisCartStore, and a Redis cache always has a non-empty address. */
  function Select(settings: Settings): (p: Plan)
    ensures p.cache.Some? <==> p.store == RedisCartStore
    ensures p.cache.Some? && p.cache.value.RedisCache? ==> p.cache.value.address != ""
  {
    var redisAddress := Get(settings, RedisAddrKey);
    var redisPassword := Get(settings, RedisPasswordKey);
    var spannerProjectId := Get(settings, SpannerProjectKey);
    var spannerConnectionString := Get(settings, SpannerConnectionStringKey);
    var alloyDBConnectionString := Get(settings, AlloyDBPrimaryIpKey);
    if !IsNullOrEmpty(redisAddress) then
      Plan(Some(RedisCache(redisAddress.value, redisPassword)), RedisCartStore)
    else if !IsNullOrEmpty(spannerProjectId) || !IsNullOrEmpty(spannerConnectionString) then
      Plan(None, SpannerCartStore)
    else if !IsNullOrEmpty(alloyDBConnectionString) then
      Plan(None, AlloyDBCartStore)
    else
      Plan(Some(MemoryCache), RedisCartStore)
  }

  /** A non-empty REDIS_ADDR selects Redis whatever the Spanner and AlloyDB settings are,
      and the cache captures exactly REDIS_ADDR and REDIS_PASSWORD. */
  lemma RedisTakesPriority(settings: Settings)
    requires !IsNullOrEmpty(Get(settings, RedisAddrKey))
    ensures Select(settings).store == RedisCartStore
    ensures Select(settings).cache ==
      Some(RedisCache(settings[RedisAddrKey], Get(settings, RedisPasswordKey)))
  {
  }

  /** Spanner is chosen exactly when Redis is not configured and either Spanner setting is,
      whatever ALLOYDB_PRIMARY_IP holds. */
  lemma SpannerChosen(settings: Settings)
    ensures Select(settings).store == SpannerCartStore <==>
      IsNullOrEmpty(Get(settings, RedisAddrKey))
      && (!IsNullOrEmpty(Get(settings, SpannerProjectKey))
          || !IsNullOrEmpty(Get(settings, SpannerConnectionStringKey)))
  {
  }

  /** AlloyDB is chosen exactly when the three higher-priority settings are null or empty
      and ALLOYDB_PRIMARY_IP is not. */
  lemma AlloyDBChosen(settings: Settings)
    ensures Select(settings).store == AlloyDBCartStore <==>
      IsNullOrEmpty(Get(settings, RedisAddrKey))
      && IsNullOrEmpty(Get(settings, SpannerProjectKey))
      && IsNullOrEmpty(Get(settings, SpannerConnectionStringKey))
      && !IsNullOrEmpty(Get(settings, AlloyDBPrimaryIpKey))
  {
  }

  /** The in-memory cache is used exactly when nothing is configured, and then the store
      is RedisCartStore running on top of it. */
  lemma FallbackChosen(settings: Settings)
    ensures Select(settings).cache == Some(MemoryCache) <==> NoStoreConfigured(settings)
    ensures NoStoreConfigured(settings) ==> Select(settings).store == RedisCartStore
  {
  }

  /** RedisCartStore serves both the Redis branch and the fallback branch, and no other. */
  lemma RedisCartStoreChosen(settings: Settings)
    ensures Select(settings).store == RedisCartStore <==>
      !IsNullOrEmpty(Get(settings, RedisAddrKey)) || NoStoreConfigured(settings)
  {
  }

  /** When a distributed cache is selected, it is Redis exactly when REDIS_ADDR is set. */
  lemma CacheKindFollowsRedisAddr(settings: Settings)
    ensures Select(settings).cache.Some? ==>
      (Select(settings).cache.value.RedisCache? <==> !IsNullOrEmpty(Get(settings, RedisAddrKey)))
  {
  }

  /** The decision reads the five named settings and nothing else. */
  lemma SelectReadsOnlyItsKeys(s1: Settings, s2: Settings)
    requires forall k :: k in [RedisAddrKey, RedisPasswordKey, SpannerProjectKey,
                               SpannerConnectionStringKey, AlloyDBPrimaryIpKey]
                      ==> Get(s1, k) == Get(s2, k)
    ensures Select(s1) == Select(s2)
  {
  }
}
