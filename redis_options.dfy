/**
 * The callback that AddStackExchangeRedisCache receives in the Redis branch: it builds the
 * StackExchange.Redis connection options one field at a time. The framework runs it when the
 * cache options are first resolved, after ConfigureServices has returned, so the console lines
 * it writes are its own output rather than part of the startup log.
 */
module RedisOptions {
  import opened Wrappers
  import opened Configuration

  /** The fields of StackExchange.Redis ConfigurationOptions that the callback touches. */
  datatype ConfigurationOptions = ConfigurationOptions(
    endPoints: seq<string>,
    abortOnConnectFail: bool,
    password: Option<string>)

  /** A freshly constructed ConfigurationOptions: no endpoint, abort on connect failure, no password. */
  const DefaultConfigurationOptions := ConfigurationOptions([], true, None)

  /** The two console lines the callback can write. */
  datatype PasswordMessage = PasswordFound | PasswordMissing

  /** The options the callback produces for a captured address and password: one endpoint,
      connect failures do not abort, and the password is kept only when it is non-empty. */
  function OptionsFor(redisAddress: string, redisPassword: Option<string>): (o: ConfigurationOptions)
    ensures o.endPoints == [redisAddress]
    ensures !o.abortOnConnectFail
    ensures o.password.Some? <==> !IsNullOrEmpty(redisPassword)
    ensures o.password.Some? ==> o.password == redisPassword
  {
    DefaultConfigurationOptions.(
      endPoints := [redisAddress],
      abortOnConnectFail := false,
      password := if IsNullOrEmpty(redisPassword) then None else redisPassword)
  }

  /**
   * The callback body: one endpoint, connect failures do not abort, and the password is set
   * only when it is non-empty; exactly one message says which of the two cases occurred.
   */
  method ConfigureRedisCacheOptions(redisAddress: string, redisPassword: Option<string>)
    returns (options: ConfigurationOptions, output: seq<PasswordMessage>)
    ensures options == OptionsFor(redisAddress, redisPassword)
    ensures options.endPoints == [redisAddress]
    ensures !options.abortOnConnectFail
    ensures options.password.Some? <==> !IsNullOrEmpty(redisPassword)
    ensures options.password.Some? ==> options.password == redisPassword
    ensures |output| == 1
    ensures output[0] == PasswordFound <==> options.password.Some?
  {
    options := DefaultConfigurationOptions;
    options := options.(endPoints := options.endPoints + [redisAddress]);
    options := options.(abortOnConnectFail := false);
    if !IsNullOrEmpty(redisPassword) {
      output := [PasswordFound];
      options := options.(password := redisPassword);
    } else {
      output := [PasswordMissing];
    }
  }
}
