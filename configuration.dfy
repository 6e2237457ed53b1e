/** The process configuration that Startup reads once, and the emptiness test it applies to each value. */
module Configuration {
  import opened Wrappers

  /** A configuration snapshot: setting names mapped to their string values. */
  type Settings = map<string, string>

  const RedisAddrKey: string := "REDIS_ADDR"
  const RedisPasswordKey: string := "REDIS_PASSWORD"
  const SpannerProjectKey: string := "SPANNER_PROJECT"
  const SpannerConnectionStringKey: string := "SPANNER_CONNECTION_STRING"
  const AlloyDBPrimaryIpKey: string := "ALLOYDB_PRIMARY_IP"

  /** The configuration indexer: a key that is not configured yields null (None). */
  function Get(settings: Settings, key: string): (r: Option<string>)
    ensures r.Some? <==> key in settings
    ensures r.Some? ==> r.value == settings[key]
  {
    if key in settings then Some(settings[key]) else None
  }

  /** string.IsNullOrEmpty: null and "" are treated alike. */
  predicate IsNullOrEmpty(s: Option<string>)
  {
    s.None? || s.value == ""
  }
}
