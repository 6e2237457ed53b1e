# Cart service startup: backend selection

This project models how the cart service's `Startup.ConfigureServices` chooses its cart
storage. It reads five configuration values (`REDIS_ADDR`, `REDIS_PASSWORD`,
`SPANNER_PROJECT`, `SPANNER_CONNECTION_STRING` and `ALLOYDB_PRIMARY_IP`). It then walks a
first-match-wins chain and registers exactly one `ICartStore` implementation:

1. `RedisCartStore` over a Redis distributed cache, when `REDIS_ADDR` is set;
2. `SpannerCartStore`, when either Spanner setting is set;
3. `AlloyDBCartStore`, when `ALLOYDB_PRIMARY_IP` is set;
4. otherwise `RedisCartStore` over the in-memory distributed cache.

After that it registers gRPC in every case.
In the Redis branch, a callback builds the StackExchange.Redis connection options. They hold
one endpoint, do not abort on a connect failure, and carry a password only when one is given.

Modules:

- `Wrappers`: `Option`. A missing configuration key reads as null, which is `None` here.
- `Configuration`: the settings snapshot, the five key names, the indexer `Get` and
  `IsNullOrEmpty`. `IsNullOrEmpty` treats null and `""` alike, as `string.IsNullOrEmpty` does.
- `Selection`: the pure decision `Select`, which returns a `Plan` (an optional cache backend
  and one store), and the lemmas about its priority order.
- `RedisOptions`: the options callback `ConfigureRedisCacheOptions`. It builds the record field
  by field, starting from the library defaults.
- `Services`: the service collection and the console as classes whose sequence fields the
  methods append to. It also holds `Startup.ConfigureServices`, which is proved to append
  exactly `Registrations(Select(configuration))` and write `StartupLog(Select(configuration))`.
  The lemmas state what those sequences contain.

## Model

| member | source | states |
|---|---|---|
| `Configuration.Get` | src/cartservice/src/Startup.cs:32-37 | A key that is configured reads as its value. A key that is not configured reads as null (`None`). |
| `Selection.Select` | src/cartservice/src/Startup.cs:32-90 | Every configuration gets a plan. The plan has a distributed cache exactly when its store is `RedisCartStore`. A Redis cache's address is never empty. |
| `Selection.RedisTakesPriority` | src/cartservice/src/Startup.cs:39-72 | A non-empty `REDIS_ADDR` selects `RedisCartStore` whatever the Spanner and AlloyDB settings hold. The Redis cache captures exactly `REDIS_ADDR` and `REDIS_PASSWORD`. |
| `Selection.SpannerChosen` | src/cartservice/src/Startup.cs:74-77 | `SpannerCartStore` is chosen if and only if `REDIS_ADDR` is null or empty and either Spanner setting is non-empty. `ALLOYDB_PRIMARY_IP` does not matter. |
| `Selection.AlloyDBChosen` | src/cartservice/src/Startup.cs:78-82 | `AlloyDBCartStore` is chosen if and only if the Redis address and both Spanner settings are null or empty and `ALLOYDB_PRIMARY_IP` is not. |
| `Selection.FallbackChosen` | src/cartservice/src/Startup.cs:83-90 | The in-memory cache is selected if and only if all four selecting settings are null or empty. In that case the store is `RedisCartStore`. |
| `Selection.RedisCartStoreChosen` | src/cartservice/src/Startup.cs:39-90 | `RedisCartStore` is the store if and only if `REDIS_ADDR` is set or nothing is configured. |
| `Selection.CacheKindFollowsRedisAddr` | src/cartservice/src/Startup.cs:42-88 | When a cache is selected, it is Redis if and only if `REDIS_ADDR` is non-empty. Otherwise it is the in-memory cache. |
| `Selection.SelectReadsOnlyItsKeys` | src/cartservice/src/Startup.cs:32-37 | Two configurations that agree on the five keys get the same plan. |
| `RedisOptions.OptionsFor` | src/cartservice/src/Startup.cs:45-65 | The options the callback produces hold exactly one endpoint, the address. `AbortOnConnectFail` is false. The password is kept if and only if it is non-empty. |
| `RedisOptions.ConfigureRedisCacheOptions` | src/cartservice/src/Startup.cs:42-69 | Building the options field by field from the library defaults yields `OptionsFor` of the captured address and password. The options hold exactly one endpoint, `REDIS_ADDR`, and `AbortOnConnectFail` is false. The password is set if and only if `REDIS_PASSWORD` is non-empty, and then it equals it. Exactly one line is written, and it is the "found" line if and only if a password was set. |
| `Services.Registrations` | src/cartservice/src/Startup.cs:42-93 | A plan's registrations are the cache (present exactly when the plan has one), then the one store, then gRPC as the last entry. |
| `Services.StartupLog` | src/cartservice/src/Startup.cs:41-85 | A plan writes at most one line. It writes none exactly when it has no cache and its store is not AlloyDB, which is the Spanner branch. |
| `Services.ServiceCollection.AddStackExchangeRedisCache` | src/cartservice/src/Startup.cs:42-69 | Appends exactly one Redis cache registration carrying the captured address and password. Nothing else changes. |
| `Services.ServiceCollection.AddDistributedMemoryCache` | src/cartservice/src/Startup.cs:88 | Appends exactly one in-memory cache registration. Nothing else changes. |
| `Services.ServiceCollection.AddSingletonCartStore` | src/cartservice/src/Startup.cs:72-89 | Appends exactly one `ICartStore` registration for the given implementation. Nothing else changes. |
| `Services.ServiceCollection.AddGrpc` | src/cartservice/src/Startup.cs:93 | Appends exactly one gRPC registration. Nothing else changes. |
| `Services.Console.WriteLine` | src/cartservice/src/Startup.cs:41-85 | Appends exactly one line to the console output. Nothing else changes. |
| `Services.AppendedRegistrations` | src/cartservice/src/Startup.cs:39-93 | Whatever the collection already holds, one call adds exactly one `ICartStore` registration: the selected one. It adds a distributed cache only when the plan has one. `AddGrpc` is the last registration and is added once. |
| `Services.ExactlyOneCartStore` | src/cartservice/src/Startup.cs:39-93 | For every configuration, the registrations contain exactly one `ICartStore`, the selected store, and end with gRPC. |
| `Services.CacheRegistrations` | src/cartservice/src/Startup.cs:42-88 | The Redis branch registers the Redis cache for `REDIS_ADDR` and `REDIS_PASSWORD`. The fallback registers the in-memory cache. The Spanner and AlloyDB branches register no cache. In the Redis branch, the options the callback builds for that cache have the single endpoint `REDIS_ADDR` and `AbortOnConnectFail` false. They carry `REDIS_PASSWORD` if and only if it is non-empty. |
| `Services.StartupLogNamesTheBranch` | src/cartservice/src/Startup.cs:41-85 | The Redis, AlloyDB and fallback branches each write their own distinct line, and the Redis line names the address. The Spanner branch writes nothing. |
| `Services.Startup.constructor` | src/cartservice/src/Startup.cs:19-24 | The startup object keeps the configuration it is given, read-only. |
| `Services.Startup.ConfigureServices` | src/cartservice/src/Startup.cs:28-94 | The registrations appended are exactly those of the selected plan: cache, store, then gRPC. The console lines appended are exactly the plan's startup log. |

## Left out

- Configuration.Get: `Settings` stands for the merged configuration as the indexer sees it, with keys spelled exactly as Startup.cs spells them. The configuration framework matches keys case-insensitively and lets later sources override earlier ones. Neither behaviour is modelled, so a key such as `redis_addr` is not found here.
- `Startup.Configure` (the HTTP pipeline, routing and gRPC endpoint mapping) is ASP.NET plumbing with no decision in it.
- The dependency-injection container is modelled only as an append-only list of registrations. How it resolves services and manages singleton lifetime is not modelled. The same goes for what `AddGrpc` and the cache extensions register internally.
- The Redis options callback runs when the framework first resolves the cache options, not inside `ConfigureServices`. The registration therefore records only the address and password the callback captures. The callback is modelled as its own method, which returns its console lines instead of writing them.
- `DefaultConfigurationOptions` takes StackExchange.Redis's usual defaults: no endpoints, `AbortOnConnectFail` true and no password. The library's special case for Azure endpoints is not modelled.
- Parsing the `host:port` endpoint string and actually connecting are left out. So is the process surviving an unreachable Redis, which happens inside StackExchange.Redis. Only the `AbortOnConnectFail = false` flag is modelled.
- `RedisCartStore`, `SpannerCartStore`, `AlloyDBCartStore`, `CartService` and the health-check service are not part of this model. They appear only as tags.
- Console output is modelled only as which message was written, plus the address in the Redis line, not the wording.
- Nothing after startup is modelled, including concurrent request handling.
