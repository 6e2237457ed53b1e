/**
 * Startup.ConfigureServices: the registrations it appends to the service collection and the
 * console lines it writes, specified by the plan that Selection.Select chooses.
 */
module Services {
  import opened Wrappers
  import opened Configuration
  import opened Selection
  import opened RedisOptions

  /** One call on the service collection. */
  datatype Registration =
    | DistributedCache(backend: CacheBackend)  // AddStackExchangeRedisCache or AddDistributedMemoryCache
    | CartStore(impl: StoreImpl)               // AddSingleton<ICartStore, impl>
    | Grpc                                     // AddGrpc

  /** The console lines ConfigureServices itself writes. */
  datatype Message =
    | AttemptingRedis(address: string)
    | CreatingAlloyDB
    | InMemoryFallback

  /** What ConfigureServices appends for a plan: the cache (if any), the one store, then gRPC. */
  function Registrations(p: Plan): (regs: seq<Registration>)
    ensures |regs| == (if p.cache.Some? then 3 else 2)
    ensures regs[|regs| - 2] == CartStore(p.store) && regs[|regs| - 1] == Grpc
    ensures p.cache.Some? ==> regs[0] == DistributedCache(p.cache.value)
  {
    (if p.cache.Some? then [DistributedCache(p.cache.value)] else []) + [CartStore(p.store), Grpc]
  }

  /** What ConfigureServices writes to the console for a plan. */
  function StartupLog(p: Plan): (log: seq<Message>)
    ensures |log| <= 1
    ensures log == [] <==> p.cache.None? && p.store != AlloyDBCartStore
  {
    match p
    case Plan(Some(RedisCache(address, _)), _) => [AttemptingRedis(address)]
    case Plan(Some(MemoryCache), _) => [InMemoryFallback]
    case Plan(None, AlloyDBCartStore) => [CreatingAlloyDB]
    case Plan(None, _) => []
  }

  /** The ICartStore implementations registered, in order. */
  function CartStores(regs: seq<Registration>): (stores: seq<StoreImpl>)
    ensures |stores| <= |regs|
    ensures forall i :: 0 <= i < |stores| ==> CartStore(stores[i]) in regs
  {
    if regs == [] then []
    else (if regs[0].CartStore? then [regs[0].impl] else []) + CartStores(regs[1..])
  }

  /** The distributed cache backends registered, in order. */
  function Caches(regs: seq<Registration>): (caches: seq<CacheBackend>)
    ensures |caches| <= |regs|
    ensures forall i :: 0 <= i < |caches| ==> DistributedCache(caches[i]) in regs
  {
    if regs == [] then []
    else (if regs[0].DistributedCache? then [regs[0].backend] else []) + Caches(regs[1..])
  }

  lemma {:induction false} CartStoresAppend(a: seq<Registration>, b: seq<Registration>)
    ensures CartStores(a + b) == CartStores(a) + CartStores(b)
  {
    if a == [] {
      assert a + b == b;
    } else {
      assert (a + b)[1..] == a[1..] + b;
      CartStoresAppend(a[1..], b);
    }
  }

  lemma {:induction false} CachesAppend(a: seq<Registration>, b: seq<Registration>)
    ensures Caches(a + b) == Caches(a) + Caches(b)
  {
    if a == [] {
      assert a + b == b;
    } else {
      assert (a + b)[1..] == a[1..] + b;
      CachesAppend(a[1..], b);
    }
  }

  /**
   * Whatever the collection held before, ConfigureServices adds exactly one ICartStore
   * registration (the chosen one), adds a distributed cache only when the plan has one,
   * and leaves AddGrpc as the last registration, after the store and the cache.
   */
  lemma AppendedRegistrations(before: seq<Registration>, p: Plan)
    ensures CartStores(before + Registrations(p)) == CartStores(before) + [p.store]
    ensures Caches(before + Registrations(p)) ==
      Caches(before) + (if p.cache.Some? then [p.cache.value] else [])
    ensures var after := before + Registrations(p);
      after[|after| - 1] == Grpc
      && forall i :: |before| <= i < |after| - 1 ==> !after[i].Grpc?
  {
    var cacheRegs := if p.cache.Some? then [DistributedCache(p.cache.value)] else [];
    var tail := [CartStore(p.store), Grpc];
    assert Registrations(p) == cacheRegs + tail;
    assert CartStores(cacheRegs) == [] by {
      if p.cache.Some? { assert CartStores(cacheRegs) == [] + CartStores([]); }
    }
    assert Caches(cacheRegs) == (if p.cache.Some? then [p.cache.value] else []) by {
      if p.cache.Some? { assert Caches(cacheRegs) == [p.cache.value] + Caches([]); }
    }
    assert CartStores(tail) == [p.store] by {
      assert tail[1..] == [Grpc];
      assert CartStores([Grpc]) == [] + CartStores([]);
    }
    assert Caches(tail) == [] by {
      assert tail[1..] == [Grpc];
      assert Caches([Grpc]) == [] + Caches([]);
    }
    CartStoresAppend(cacheRegs, tail);
    CartStoresAppend(before, Registrations(p));
    CachesAppend(cacheRegs, tail);
    CachesAppend(before, Registrations(p));
  }

  /** For every configuration: exactly one ICartStore, the selected one, and gRPC last. */
  lemma ExactlyOneCartStore(settings: Settings)
    ensures CartStores(Registrations(Select(settings))) == [Select(settings).store]
    ensures Registrations(Select(settings))[|Registrations(Select(settings))| - 1] == Grpc
  {
    var p := Select(settings);
    AppendedRegistrations([], p);
    assert [] + Registrations(p) == Registrations(p);
  }

  /** Only the Redis branch and the fallback register a distributed cache: Redis when
      REDIS_ADDR is set, the in-memory cache when nothing is; Spanner and AlloyDB none. */
  lemma CacheRegistrations(settings: Settings)
    ensures var caches := Caches(Registrations(Select(settings)));
      (!IsNullOrEmpty(Get(settings, RedisAddrKey)) ==>
         caches == [RedisCache(settings[RedisAddrKey], Get(settings, RedisPasswordKey))])
      && (NoStoreConfigured(settings) ==> caches == [MemoryCache])
      && (Select(settings).store != RedisCartStore ==> caches == [])
      && (!IsNullOrEmpty(Get(settings, RedisAddrKey)) ==>
           var options := OptionsFor(caches[0].address, caches[0].password);
           options.endPoints == [settings[RedisAddrKey]]
           && !options.abortOnConnectFail
           && (options.password.Some? <==> !IsNullOrEmpty(Get(settings, RedisPasswordKey)))
           && (options.password.Some? ==> options.password == Get(settings, RedisPasswordKey)))
  {
    var p := Select(settings);
    AppendedRegistrations([], p);
    assert [] + Registrations(p) == Registrations(p);
    FallbackChosen(settings);
    CacheKindFollowsRedisAddr(settings);
  }

  /** Each branch but Spanner announces itself with its own line; the Spanner branch writes nothing. */
  lemma StartupLogNamesTheBranch(settings: Settings)
    ensures var log := StartupLog(Select(settings));
      (!IsNullOrEmpty(Get(settings, RedisAddrKey)) ==> log == [AttemptingRedis(settings[RedisAddrKey])])
      && (!IsNullOrEmpty(Get(settings, RedisAddrKey)) <==> log != [] && log[0].AttemptingRedis?)
      && (Select(settings).store == AlloyDBCartStore <==> log == [CreatingAlloyDB])
      && (NoStoreConfigured(settings) <==> log == [InMemoryFallback])
      && (Select(settings).store == SpannerCartStore <==> log == [])
  {
  }

  /** The DI service collection; the source mutates it in place. */
  class ServiceCollection {
    var registrations: seq<Registration>

    constructor ()
      ensures registrations == []
    {
      registrations := [];
    }

    method AddStackExchangeRedisCache(address: string, password: Option<string>)
      modifies this
      ensures registrations == old(registrations) + [DistributedCache(RedisCache(address, password))]
    {
      registrations := registrations + [DistributedCache(RedisCache(address, password))];
    }

    method AddDistributedMemoryCache()
      modifies this
      ensures registrations == old(registrations) + [DistributedCache(MemoryCache)]
    {
      registrations := registrations + [DistributedCache(MemoryCache)];
    }

    method AddSingletonCartStore(impl: StoreImpl)
      modifies this
      ensures registrations == old(registrations) + [CartStore(impl)]
    {
      registrations := registrations + [CartStore(impl)];
    }

    method AddGrpc()
      modifies this
      ensures registrations == old(registrations) + [Grpc]
    {
      registrations := registrations + [Grpc];
    }
  }

  /** Standard output, as the sequence of lines written so far. */
  class Console {
    var lines: seq<Message>

    constructor ()
      ensures lines == []
    {
      lines := [];
    }

    method WriteLine(m: Message)
      modifies this
      ensures lines == old(lines) + [m]
    {
      lines := lines + [m];
    }
  }

  class Startup {
    const configuration: Settings

    constructor (configuration: Settings)
      ensures this.configuration == configuration
    {
      this.configuration := configuration;
    }

    /**
     * Reads the five settings, walks the priority chain and registers what it chose.
     * The appended registrations and console lines are exactly those of the selected plan.
     */
    method ConfigureServices(services: ServiceCollection, console: Console)
      modifies services, console
      ensures services.registrations == old(services.registrations) + Registrations(Select(configuration))
      ensures console.lines == old(console.lines) + StartupLog(Select(configuration))
    {
      var redisAddress := Get(configuration, RedisAddrKey);
      var redisPassword := Get(configuration, RedisPasswordKey);
      var spannerProjectId := Get(configuration, SpannerProjectKey);
      var spannerConnectionString := Get(configuration, SpannerConnectionStringKey);
      var alloyDBConnectionString := Get(configuration, AlloyDBPrimaryIpKey);

      if !IsNullOrEmpty(redisAddress) {
        console.WriteLine(AttemptingRedis(redisAddress.value));
        services.AddStackExchangeRedisCache(redisAddress.value, redisPassword);
        services.AddSingletonCartStore(RedisCartStore);
      } else if !IsNullOrEmpty(spannerProjectId) || !IsNullOrEmpty(spannerConnectionString) {
        services.AddSingletonCartStore(SpannerCartStore);
      } else if !IsNullOrEmpty(alloyDBConnectionString) {
        console.WriteLine(CreatingAlloyDB);
        services.AddSingletonCartStore(AlloyDBCartStore);
      } else {
        console.WriteLine(InMemoryFallback);
        services.AddDistributedMemoryCache();
        services.AddSingletonCartStore(RedisCartStore);
      }

      services.AddGrpc();
    }
  }
}
